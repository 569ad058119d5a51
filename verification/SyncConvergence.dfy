/**
  Two ticks are enough: rounds of the protocol in which every message arrives before the next tick.
*/
module SyncConvergence {
  import opened Connections
  import opened Collection
  import opened Protocol
  import opened SyncSystem
  import opened SyncTheorems
  import opened SyncLiveness

  // ---------------------------------------------------------------- the progress invariant holds in every run

  /** Logging is on whenever some session is due an update. */
  predicate LoggingForUpdates(s: System) {
    forall i :: 0 <= i < |s.links| && s.links[i].session.dataUpdateFlags ==> s.ser.enabled
  }

  predicate SystemLive(s: System) {
    && s.available && SystemOk(s) && LoggingForUpdates(s)
    && forall i :: 0 <= i < |s.links| ==> LiveOk(s.links[i])
  }

  lemma ServeLogging(s: System, i: nat)
    requires SystemLive(s) && i < |s.links| && CanServe(s.links[i])
    ensures LoggingForUpdates(After(s, Serve(i)))
  {
    var l := s.links[i];
    var (d, ser) := ServeLink(l, s.available, s.ser, |s.history| - 1);
    assert l.client.outbox[0] in l.client.outbox;
    assert d.session.dataUpdateFlags ==> ser.enabled;
    assert s.ser.enabled ==> ser.enabled;
  }

  lemma LiveReplaced(s: System, t: System, i: nat, d: Link)
    requires SystemLive(s) && i < |s.links| && LiveOk(d)
    requires d.session.dataUpdateFlags ==> s.links[i].session.dataUpdateFlags
    requires t == s.(links := s.links[i := d]) && SystemOk(t)
    ensures SystemLive(t)
  {
  }

  lemma LiveServe(s: System, i: nat)
    requires SystemLive(s) && i < |s.links| && CanServe(s.links[i])
    ensures SystemLive(After(s, Serve(i)))
  {
    StepOk(s, Serve(i));
    ServeLive(s.links[i], s.history, s.ser);
    ServeLogging(s, i);
  }

  lemma LiveTick(s: System, rows: seq<Row>, order: seq<Connection>)
    requires SystemLive(s) && IsOrder(CollectedSerializer(s, rows).storage.conns, order)
    ensures SystemLive(TickSystem(s, rows, order))
  {
    TickOk(s, rows, order);
    forall i | 0 <= i < |s.links| ensures LiveOk(TickSystem(s, rows, order).links[i]) {
      TickKeepsLive(s.links[i], NextTimestamp(s.timestamp), TickUpdate(s, rows), TickDump(s, rows, order), s.history);
    }
  }

  lemma LiveCollector(s: System, step: Step)
    requires SystemLive(s) && (step.Kernel? || step.RequireRefill? || step.PauseCollector? || step.Connect?)
    ensures SystemLive(After(s, step))
  {
    StepOk(s, step);
  }

  /** Only an answer to a request sets a session's flags. */
  lemma NoNewFlags(l: Link, step: Step)
    ensures LinkStep(l, step).session.dataUpdateFlags ==> l.session.dataUpdateFlags
  {
  }

  lemma DeliveryKeepsSession(l: Link, history: seq<Table>)
    requires CanDeliver(l)
    ensures DeliverLink(l, history, true).session == l.session
  {
  }

  lemma LiveStep(s: System, step: Step)
    requires SystemLive(s)
    ensures SystemLive(After(s, step))
  {
    hide LinkStep, DeliverLink, ServeLink, TickSystem, KernelEvent, NewLink, IsOrder, CollectedSerializer, LinkOk, LiveOk;
    StepOk(s, step);
    match step
    case Connect(_) => LiveCollector(s, step);
    case Kernel(_) => LiveCollector(s, step);
    case RequireRefill => LiveCollector(s, step);
    case PauseCollector(_) => LiveCollector(s, step);
    case Deliver(i) =>
      if i < |s.links| && CanDeliver(s.links[i]) {
        DeliverLive(s.links[i], s.history);
        DeliveryKeepsSession(s.links[i], s.history);
        LiveReplaced(s, After(s, step), i, DeliverLink(s.links[i], s.history, s.available));
      }
    case Serve(i) => if i < |s.links| && CanServe(s.links[i]) { LiveServe(s, i); }
    case Tick(rows, order) =>
      if IsOrder(CollectedSerializer(s, rows).storage.conns, order) { LiveTick(s, rows, order); }
    case _ =>
      if step.i < |s.links| {
        LinkStepLive(s.links[step.i], step, s.history);
        NoNewFlags(s.links[step.i], step);
        LiveReplaced(s, After(s, step), step.i, LinkStep(s.links[step.i], step));
      }
  }

  lemma {:induction false} LiveRun(s: System, steps: seq<Step>)
    requires SystemLive(s)
    ensures SystemLive(Run(s, steps))
    decreases |steps|
  {
    if steps == [] {
    } else {
      LiveRun(s, steps[..|steps| - 1]);
      LiveStep(Run(s, steps[..|steps| - 1]), steps[|steps| - 1]);
    }
  }

  lemma ReachableLive(collecting: bool, steps: seq<Step>)
    ensures SystemLive(Run(Initial(true, collecting), steps))
  {
    LiveRun(Initial(true, collecting), steps);
  }

  // ---------------------------------------------------------------- rounds

  /** Connected on both sides, not paused, and nothing under way in either direction. */
  predicate Settled(l: Link) {
    Both(l) && !l.client.isPaused && Stream(l) == [] && l.client.outbox == []
  }

  /** Steps that may happen in a round of link i: anything but ticks, and pausing or losing link i. */
  predicate Keeps(step: Step, i: nat) {
    && !step.Tick?
    && ((step.Pause? || step.LeaveClient? || step.LeaveServer? || step.LoseClient? || step.LoseServer?) ==> step.i != i)
  }

  /** A tick and the steps after it, up to the next tick. */
  datatype Round = Round(rows: seq<Row>, order: seq<Connection>, steps: seq<Step>)

  predicate CanTick(s: System, r: Round) {
    && IsOrder(CollectedSerializer(s, r.rows).storage.conns, r.order)
    && !(Runs(s.collector) && s.collector.isRefillRequired)
  }

  function Ticked(s: System, r: Round): System
    requires CanTick(s, r)
  {
    TickSystem(s, r.rows, r.order)
  }

  /** A round from a state where link i is settled, without a refill, in which all its messages arrive. */
  predicate IsRound(s: System, r: Round, i: nat) {
    && i < |s.links| && Settled(s.links[i])
    && CanTick(s, r)
    && (forall k :: 0 <= k < |r.steps| ==> Keeps(r.steps[k], i))
    && i < |Run(Ticked(s, r), r.steps).links|
    && Settled(Run(Ticked(s, r), r.steps).links[i])
  }

  // ---------------------------------------------------------------- what a round does to its link

  /** A client on its way to be synchronised by data it asked for. */
  predicate Synchronizing(l: Link) {
    var c, df, uf, stream := l.client, l.session.dataFlags, l.session.dataUpdateFlags, Stream(l);
    && Both(l) && !c.isPaused
    && (|| (|stream| == 2 && stream[0].UpdateTick? && stream[1].Data? && (stream[1].isUpdate ==> c.isSynchronized)
            && c.outbox == [] && c.expected == ExpectNone && !c.remaining && !df && !uf)
        || (|stream| == 1 && stream[0].Data? && (stream[0].isUpdate ==> c.isSynchronized)
            && c.outbox == [] && c.expected == ExpectNone && c.remaining && !df && !uf)
        || (stream == [] && c.isSynchronized
            && c.outbox == [RequestData(true, true)] && c.expected == ExpectStatus && !c.remaining && !df && !uf)
        || (stream == [DataStatus(true, true)] && c.isSynchronized
            && c.outbox == [] && c.expected == ExpectStatus && !c.remaining && df && uf)
        || (stream == [] && c.isSynchronized
            && c.outbox == [] && c.expected == ExpectNone && !c.remaining && df && uf))
  }

  /** A client that missed its data and asks for a dump; `late` is data it will ignore. */
  predicate Restarting(l: Link) {
    var c, df, uf, stream := l.client, l.session.dataFlags, l.session.dataUpdateFlags, Stream(l);
    && Both(l) && !c.isPaused
    && (|| (|stream| > 0 && stream[0].UpdateTick? && LateData(stream[1..])
            && c.outbox == [] && c.expected == ExpectNone && c.remaining && !df && !uf)
        || (!c.remaining && !c.isSynchronized && !c.requestedUpdate
            && (|| (LateData(stream) && c.outbox == [RequestData(true, false)] && c.expected == ExpectStatus && !df && !uf)
                || (|stream| > 0 && LateData(stream[..|stream| - 1]) && stream[|stream| - 1] == DataStatus(true, false)
                    && c.outbox == [] && c.expected == ExpectStatus && df && !uf)
                || (stream == [] && c.outbox == [] && c.expected == ExpectNone && df && !uf))))
  }

  predicate LateData(stream: seq<ServerMsg>) { |stream| <= 1 && forall m :: m in stream ==> m.Data? }

  // ---------------------------------------------------------------- the tick opens the round

  lemma SettledClient(l: Link, history: seq<Table>)
    requires LinkOk(l, history, true) && LiveOk(l) && Settled(l)
    ensures l.client.expected == ExpectNone && !l.session.isSendingData
    ensures l.client.remaining || l.session.dataFlags
    ensures l.session.dataUpdateFlags ==> l.client.isSynchronized && l.session.dataFlags
    ensures l.wire == [] && l.session.queue == [] && l.session.writer == Idle
  {
    assert |Stream(l)| == |l.wire| + |WriterMsgs(l.session.writer)| + |l.session.queue|;
  }

  lemma TickOpens(s: System, r: Round, i: nat)
    requires SystemLive(s) && i < |s.links| && Settled(s.links[i]) && CanTick(s, r)
    ensures var l := Ticked(s, r).links[i];
      && (s.links[i].client.remaining ==> Restarting(l))
      && (!s.links[i].client.remaining ==> Synchronizing(l))
      && l.client == s.links[i].client
  {
    var l, d := s.links[i], Ticked(s, r).links[i];
    SettledClient(l, s.history);
    var q := d.session.queue;
    assert Stream(d) == q;
    assert q != [] && q[0].UpdateTick? && LateData(q[1..]);
    if !l.client.remaining {
      TickIsCovered(s.collector, s.ser, r.rows);
      if l.session.dataUpdateFlags {
        assert WantsUpdate(s.links[i].session);
        assert TickUpdate(s, r.rows).Some?;
      } else {
        assert WantsDump(s.links[i].session);
        assert TickDump(s, r.rows, r.order).Some?;
      }
    }
  }

  // ---------------------------------------------------------------- the steps of the round

  /** Moving messages towards the client leaves the link where it is in the round. */
  lemma SendingRound(l: Link, d: Link)
    requires d.client == l.client && Stream(d) == Stream(l)
    requires d.session.state == l.session.state
    requires d.session.dataFlags == l.session.dataFlags && d.session.dataUpdateFlags == l.session.dataUpdateFlags
    ensures Synchronizing(l) ==> Synchronizing(d)
    ensures Restarting(l) ==> Restarting(d)
  {
  }

  lemma DeliverSynchronizing(l: Link, history: seq<Table>)
    requires LinkOk(l, history, true) && LiveOk(l) && CanDeliver(l) && Synchronizing(l)
    ensures Synchronizing(DeliverLink(l, history, true))
    ensures l.client.isSynchronized ==> DeliverLink(l, history, true).client.isSynchronized
  {
    DeliverOk(l, history, true);
    StreamAfterDelivery(l, history, true);
    var d := DeliverLink(l, history, true);
    var m := l.wire[0];
    assert m == Stream(l)[0];
    if m.Data? {
      assert Stream(d) == [];
      assert d.client.isSynchronized && d.client.outbox == [RequestData(true, true)];
    }
  }

  lemma DeliverRestarting(l: Link, history: seq<Table>)
    requires LinkOk(l, history, true) && LiveOk(l) && CanDeliver(l) && Restarting(l)
    ensures Restarting(DeliverLink(l, history, true))
  {
    DeliverOk(l, history, true);
    StreamAfterDelivery(l, history, true);
    var d := DeliverLink(l, history, true);
    var m, stream := l.wire[0], Stream(l);
    assert m == stream[0];
    if m.Data? && |stream| == 2 {
      assert stream[1..] == [DataStatus(true, false)];
    }
  }

  lemma ServeSynchronizing(l: Link, ser: Serializer, now: nat)
    requires CanServe(l) && Synchronizing(l)
    ensures var d := ServeLink(l, true, ser, now).0;
      Synchronizing(d) && d.client.isSynchronized == l.client.isSynchronized
  {
    var d := ServeLink(l, true, ser, now).0;
    QueuedStream(l, d.session, DataStatus(true, true));
    assert Stream(d) == [DataStatus(true, true)];
  }

  lemma ServeRestarting(l: Link, ser: Serializer, now: nat)
    requires CanServe(l) && Restarting(l)
    ensures Restarting(ServeLink(l, true, ser, now).0)
  {
    var d := ServeLink(l, true, ser, now).0;
    QueuedStream(l, d.session, DataStatus(true, false));
    assert Stream(d) == Stream(l) + [DataStatus(true, false)];
    assert Stream(d)[..|Stream(d)| - 1] == Stream(l);
  }

  lemma SendSteps(l: Link, step: Step)
    requires step.LoadWriter? || step.SendPart? || step.SendRest?
    ensures var d := LinkStep(l, step);
      && d.client == l.client && Stream(d) == Stream(l) && d.session.state == l.session.state
      && d.session.dataFlags == l.session.dataFlags && d.session.dataUpdateFlags == l.session.dataUpdateFlags
  {
    LoadedStream(l);
    SentStream(l);
    hide Stream;
  }

  /** The link is still on its way, and has not lost synchronisation on the way to it. */
  predicate OnItsWay(l: Link, d: Link) {
    && (Synchronizing(l) ==> Synchronizing(d) && (l.client.isSynchronized ==> d.client.isSynchronized))
    && (Restarting(l) ==> Restarting(d))
  }

  lemma DeliverRound(l: Link, history: seq<Table>)
    requires LinkOk(l, history, true) && LiveOk(l) && CanDeliver(l)
    ensures OnItsWay(l, DeliverLink(l, history, true))
  {
    if Synchronizing(l) { DeliverSynchronizing(l, history); }
    if Restarting(l) { DeliverRestarting(l, history); }
  }

  lemma ServeRound(l: Link, ser: Serializer, now: nat)
    requires CanServe(l)
    ensures OnItsWay(l, ServeLink(l, true, ser, now).0)
  {
    if Synchronizing(l) { ServeSynchronizing(l, ser, now); }
    if Restarting(l) { ServeRestarting(l, ser, now); }
  }

  lemma SendRound(l: Link, step: Step)
    requires step.LoadWriter? || step.SendPart? || step.SendRest?
    ensures OnItsWay(l, LinkStep(l, step))
  {
    SendSteps(l, step);
    SendingRound(l, LinkStep(l, step));
  }

  lemma OtherLink(s: System, step: Step, i: nat)
    requires i < |s.links| && Keeps(step, i)
    requires step.Connect? || step.Kernel? || step.RequireRefill? || step.PauseCollector? || step.i != i
    ensures i < |After(s, step).links| && After(s, step).links[i] == s.links[i]
  {
  }

  /** A step of the round keeps the link on its way. */
  lemma RoundStep(s: System, step: Step, i: nat)
    requires SystemLive(s) && i < |s.links| && Keeps(step, i)
    ensures i < |After(s, step).links| && OnItsWay(s.links[i], After(s, step).links[i])
  {
    var l := s.links[i];
    if step.Connect? || step.Kernel? || step.RequireRefill? || step.PauseCollector? || step.i != i {
      OtherLink(s, step, i);
    } else if step.Deliver? {
      if CanDeliver(l) { DeliverRound(l, s.history); }
    } else if step.Serve? {
      if CanServe(l) { ServeRound(l, s.ser, |s.history| - 1); }
    } else {
      SendRound(l, step);
    }
  }

  lemma {:induction false} RoundSteps(s: System, steps: seq<Step>, i: nat)
    requires SystemLive(s) && i < |s.links|
    requires forall k :: 0 <= k < |steps| ==> Keeps(steps[k], i)
    ensures i < |Run(s, steps).links| && OnItsWay(s.links[i], Run(s, steps).links[i])
    decreases |steps|
  {
    if steps == [] {
    } else {
      RoundSteps(s, steps[..|steps| - 1], i);
      LiveRun(s, steps[..|steps| - 1]);
      RoundStep(Run(s, steps[..|steps| - 1]), steps[|steps| - 1], i);
    }
  }

  // ---------------------------------------------------------------- rounds converge

  /**
    One round: a client that awaits no data ends it synchronised, and one that was synchronised is so
    throughout; any other client ends it with a dump on order.
  */
  lemma RoundResult(s: System, r: Round, i: nat)
    requires SystemLive(s) && IsRound(s, r, i)
    ensures SystemLive(Run(Ticked(s, r), r.steps))
    ensures var l, d := s.links[i], Run(Ticked(s, r), r.steps).links[i];
      && !d.client.remaining
      && (!l.client.remaining ==> d.client.isSynchronized)
  {
    TickOpens(s, r, i);
    LiveTick(s, r.rows, r.order);
    LiveRun(Ticked(s, r), r.steps);
    RoundSteps(Ticked(s, r), r.steps, i);
  }

  /** While it awaits no data, a synchronised client stays synchronised at every moment of the round. */
  lemma RoundStaysSynchronized(s: System, r: Round, i: nat, n: nat)
    requires SystemLive(s) && IsRound(s, r, i) && n <= |r.steps|
    requires !s.links[i].client.remaining && s.links[i].client.isSynchronized
    ensures var t := Run(Ticked(s, r), r.steps[..n]);
      i < |t.links| && t.links[i].client.isSynchronized
  {
    TickOpens(s, r, i);
    LiveTick(s, r.rows, r.order);
    RoundSteps(Ticked(s, r), r.steps[..n], i);
  }

  /** The state after consecutive rounds, when each is a round from the state before it. */
  predicate AreRounds(s: System, rounds: seq<Round>, i: nat)
    decreases |rounds|
  {
    rounds == [] || (IsRound(s, rounds[0], i) && AreRounds(Run(Ticked(s, rounds[0]), rounds[0].steps), rounds[1..], i))
  }

  function AfterRounds(s: System, rounds: seq<Round>, i: nat): System
    requires AreRounds(s, rounds, i)
    decreases |rounds|
  {
    if rounds == [] then s
    else AfterRounds(Run(Ticked(s, rounds[0]), rounds[0].steps), rounds[1..], i)
  }

  lemma {:induction false} SynchronizedForGood(s: System, rounds: seq<Round>, i: nat)
    requires SystemLive(s) && AreRounds(s, rounds, i) && rounds != []
    requires i < |s.links| && !s.links[i].client.remaining
    ensures i < |AfterRounds(s, rounds, i).links| && AfterRounds(s, rounds, i).links[i].client.isSynchronized
    decreases |rounds|
  {
    RoundResult(s, rounds[0], i);
    if |rounds| == 1 {
    } else {
      SynchronizedForGood(Run(Ticked(s, rounds[0]), rounds[0].steps), rounds[1..], i);
    }
  }

  /**
    Convergence. From any reachable state in which a connected, unpaused client has nothing under way,
    two or more rounds without a refill leave the client synchronised.
  */
  lemma ConvergesInTwoTicks(collecting: bool, steps: seq<Step>, rounds: seq<Round>, i: nat)
    requires var s := Run(Initial(true, collecting), steps);
      i < |s.links| && |rounds| >= 2 && AreRounds(s, rounds, i)
    ensures var s := Run(Initial(true, collecting), steps);
      i < |AfterRounds(s, rounds, i).links| && AfterRounds(s, rounds, i).links[i].client.isSynchronized
  {
    var s := Run(Initial(true, collecting), steps);
    ReachableLive(collecting, steps);
    RoundResult(s, rounds[0], i);
    SynchronizedForGood(Run(Ticked(s, rounds[0]), rounds[0].steps), rounds[1..], i);
  }

  // ---------------------------------------------------------------- every link can be brought to rest

  /** What reading a message can still lead to: ticks and data may each bring a request and an answer to it. */
  function Weight(m: ServerMsg): nat { if m.DataStatus? then 1 else 5 }

  function Load(stream: seq<ServerMsg>): nat
    decreases |stream|
  {
    if stream == [] then 0 else Weight(stream[0]) + Load(stream[1..])
  }

  /** What a client has asked for, and the request it makes on its own when updates are refused. */
  function Owed(c: Client): nat { 2 * |c.outbox| + if c.requestedUpdate then 2 else 0 }

  /** How far a link is from rest, and how far its messages are from the wire. */
  function Work(l: Link): nat { Load(Stream(l)) + Owed(l.client) }

  function Unsent(l: Link): nat { 2 * |l.session.queue| + |WriterMsgs(l.session.writer)| }

  predicate AtWork(l: Link) { Both(l) && !l.client.isPaused }

  lemma {:induction false} LoadSnoc(stream: seq<ServerMsg>, m: ServerMsg)
    ensures Load(stream + [m]) == Load(stream) + Weight(m)
    decreases |stream|
  {
    if stream == [] {
      assert stream + [m] == [m] && Load([m][1..]) == 0;
    } else {
      assert (stream + [m])[1..] == stream[1..] + [m];
      LoadSnoc(stream[1..], m);
    }
  }

  /** What a connected pair has under way: no handshake and no farewell in either direction. */
  lemma OnlyTraffic(l: Link, history: seq<Table>, available: bool)
    requires LinkOk(l, history, available) && Both(l)
    ensures l.wire != [] ==> var m := l.wire[0]; m.UpdateTick? || m.DataStatus? || m.Data?
    ensures l.client.outbox != [] ==> l.client.outbox[0].RequestData?
  {
    if l.wire != [] {
      assert Stream(l)[0] == l.wire[0];
      ReadRank(history, available, Advance(history, available, l.cursor, l.wire[0]).value, Stream(l)[1..]);
    }
    if l.client.outbox != [] {
      assert l.client.outbox[0] in l.client.outbox;
    }
  }

  lemma ReactionOwes(c: Client, m: ServerMsg)
    requires c.state == Connected && (m.UpdateTick? || m.DataStatus? || m.Data?) && ClientOnMessage(c, m).Next?
    ensures Owed(ClientOnMessage(c, m).client) < Owed(c) + Weight(m)
  {
    hide OnServerTick, OnDataStatus, OnData;
    match m
    case UpdateTick(timestamp) => TickOwes(c.(timestamp := timestamp));
    case DataStatus(df, uf) => StatusOwes(c.(dataFlags := df, dataUpdateFlags := uf, expected := ExpectNone));
    case Data(isUpdate, items) => DataOwes(c, isUpdate, items);
  }

  lemma RequestOwes(c: Client)
    ensures Owed(ClientRequest(c)) <= Owed(c) + 2
  {
  }

  lemma TickOwes(c: Client)
    ensures Owed(OnServerTick(c)) < Owed(c) + 5
  {
    RequestOwes(c.(remaining := false, requestedUpdate := false, isSynchronized := false));
    hide ClientRequest;
  }

  /** A request that an answer brings about takes the place of the updates that it gives up. */
  lemma StatusOwes(c: Client)
    ensures Owed(OnDataStatus(c)) <= Owed(c)
  {
    var d := c.(requested := c.requested && c.dataFlags, requestedUpdate := c.requestedUpdate && c.dataUpdateFlags);
    RequestOwes(d.(requestedUpdate := false));
    hide ClientRequest;
  }

  lemma DataOwes(c: Client, isUpdate: bool, items: seq<Doc>)
    requires OnData(c, isUpdate, items).Next?
    ensures Owed(OnData(c, isUpdate, items).client) < Owed(c) + 5
  {
    hide Replay;
    if Wanted(c, isUpdate) {
      var d := c.(replica := Replay(items, if isUpdate then c.replica else Cleared(c.replica)).store, remaining := false);
      RequestOwes(if c.isSynchronized then d else d.(isSynchronized := true, requestedUpdate := c.requested));
    }
    hide ClientRequest;
  }

  lemma DeliverWorks(l: Link, history: seq<Table>, available: bool)
    requires LinkOk(l, history, available) && AtWork(l) && CanDeliver(l)
    ensures var d := DeliverLink(l, history, available); AtWork(d) && Work(d) < Work(l)
  {
    DeliverReaction(l, history, available);
    StreamAfterDelivery(l, history, available);
    OnlyTraffic(l, history, available);
    MessageStates(l.client, l.wire[0]);
    ReactionOwes(l.client, l.wire[0]);
  }

  lemma ServeWorks(l: Link, history: seq<Table>, available: bool, ser: Serializer, now: nat)
    requires LinkOk(l, history, available) && AtWork(l) && CanServe(l)
    ensures var d := ServeLink(l, available, ser, now).0; AtWork(d) && Work(d) < Work(l)
  {
    OnlyTraffic(l, history, available);
    var d := ServeLink(l, available, ser, now).0;
    var m := l.client.outbox[0];
    var st := DataStatus(m.dataFlags && available, m.updateFlags && available);
    QueuedStream(l, d.session, st);
    assert Stream(d) == Stream(l) + [st];
    LoadSnoc(Stream(l), st);
  }

  lemma SendWorks(l: Link, i: nat)
    requires AtWork(l) && l.wire == [] && Stream(l) != []
    ensures var d := LinkStep(l, if l.session.writer.Sending? then SendRest(i) else LoadWriter(i));
      AtWork(d) && Work(d) == Work(l) && Unsent(d) < Unsent(l)
  {
    SendSteps(l, if l.session.writer.Sending? then SendRest(i) else LoadWriter(i));
    assert |Stream(l)| == |WriterMsgs(l.session.writer)| + |l.session.queue|;
  }

  lemma {:induction false} RunCons(s: System, step: Step, steps: seq<Step>)
    ensures Run(s, [step] + steps) == Run(After(s, step), steps)
    decreases |steps|
  {
    var all := [step] + steps;
    if steps == [] {
      assert all[..0] == [] && all == [step];
      assert Run(s, all) == After(Run(s, all[..0]), step);
    } else {
      assert all[..|all| - 1] == [step] + steps[..|steps| - 1];
      RunCons(s, step, steps[..|steps| - 1]);
    }
  }

  /** The next step that brings a link closer to rest. */
  function NextStep(l: Link, i: nat): Step {
    if l.client.outbox != [] then Serve(i)
    else if l.wire != [] then Deliver(i)
    else if l.session.writer.Sending? then SendRest(i)
    else LoadWriter(i)
  }

  predicate Closer(s: System, t: System, i: nat) {
    && i < |s.links| && i < |t.links| && AtWork(t.links[i])
    && (Work(t.links[i]) < Work(s.links[i])
        || (Work(t.links[i]) == Work(s.links[i]) && Unsent(t.links[i]) < Unsent(s.links[i])))
  }

  lemma NextServes(s: System, i: nat)
    requires SystemOk(s) && i < |s.links| && AtWork(s.links[i]) && s.links[i].client.outbox != []
    ensures Closer(s, After(s, Serve(i)), i)
  {
    ServeWorks(s.links[i], s.history, s.available, s.ser, |s.history| - 1);
  }

  lemma NextDelivers(s: System, i: nat)
    requires SystemOk(s) && i < |s.links| && AtWork(s.links[i]) && s.links[i].wire != []
    ensures Closer(s, After(s, Deliver(i)), i)
  {
    DeliverWorks(s.links[i], s.history, s.available);
  }

  lemma NextWorks(s: System, i: nat)
    requires SystemOk(s) && i < |s.links| && AtWork(s.links[i]) && !Settled(s.links[i])
    ensures Closer(s, After(s, NextStep(s.links[i], i)), i)
  {
    if s.links[i].client.outbox != [] {
      NextServes(s, i);
    } else if s.links[i].wire != [] {
      NextDelivers(s, i);
    } else {
      SendWorks(s.links[i], i);
    }
  }

  lemma NextKeepsCollector(s: System, i: nat)
    requires i < |s.links|
    ensures After(s, NextStep(s.links[i], i)).collector == s.collector
  {
    hide LinkStep, DeliverLink, ServeLink;
  }

  /**
    A connected, unpaused link of any state in order can be brought to rest without a tick, by sending,
    delivering and answering what is under way.
  */
  lemma {:induction false} Drain(s: System, i: nat) returns (steps: seq<Step>)
    requires SystemOk(s) && i < |s.links| && Both(s.links[i]) && !s.links[i].client.isPaused
    ensures forall k :: 0 <= k < |steps| ==> Keeps(steps[k], i)
    ensures i < |Run(s, steps).links| && Settled(Run(s, steps).links[i]) && Run(s, steps).collector == s.collector
    decreases Work(s.links[i]), Unsent(s.links[i])
  {
    hide SystemOk, After, Settled, Work, Unsent;
    if Settled(s.links[i]) {
      steps := [];
    } else {
      var step := NextStep(s.links[i], i);
      NextWorks(s, i);
      StepOk(s, step);
      NextKeepsCollector(s, i);
      var rest := Drain(After(s, step), i);
      RunCons(s, step, rest);
      steps := [step] + rest;
    }
  }

  /** Whatever a tick without a refill brings, there are steps that make it a round. */
  lemma RoundExists(s: System, rows: seq<Row>, order: seq<Connection>, i: nat) returns (r: Round)
    requires SystemLive(s) && i < |s.links| && Settled(s.links[i]) && CanTick(s, Round(rows, order, []))
    ensures r.rows == rows && r.order == order && IsRound(s, r, i)
    ensures Run(Ticked(s, r), r.steps).collector == Ticked(s, r).collector
  {
    var r0 := Round(rows, order, []);
    TickOpens(s, r0, i);
    LiveTick(s, rows, order);
    var steps := Drain(Ticked(s, r0), i);
    r := Round(rows, order, steps);
  }
}
