/**
  Server ticks keep every link in order, and with that every run does: the two safety
  results of the synchronisation protocol.
*/
module SyncTheorems {
  import opened Options
  import opened Connections
  import opened Collection
  import opened CollectedTable
  import opened Protocol
  import opened SyncSystem

  // ---------------------------------------------------------------- one tick on one link

  /** Stopping a transmission drops DATA messages only. */
  lemma StoppedStream(l: Link, history: seq<Table>, available: bool)
    requires LinkOk(l, history, available)
    ensures var d := l.(session := BeforeTick(l.session));
      && Statuses(Stream(d)) == Statuses(Stream(l))
      && (l.client.state != Disconnected ==>
          ReadAll(history, available, l.cursor, Stream(d)) == ReadAll(history, available, l.cursor, Stream(l)))
  {
    var s := l.session;
    var d := l.(session := BeforeTick(s));
    if s.state != Disconnected && s.isSendingData {
      var w, w' := WriterMsgs(s.writer), WriterMsgs(d.session.writer);
      assert Stream(l) == l.wire + (w + s.queue);
      assert Stream(d) == l.wire + (w' + WithoutData(s.queue));
      DroppedWriter(s.writer, d.session.writer, s.queue, history, available);
      StatusesAppend(l.wire, w + s.queue);
      StatusesAppend(l.wire, w' + WithoutData(s.queue));
      if l.client.state != Disconnected {
        ReadAppend(history, available, l.cursor, l.wire, w + s.queue);
        ReadAppend(history, available, l.cursor, l.wire, w' + WithoutData(s.queue));
        DroppedWriterReads(ReadAll(history, available, l.cursor, l.wire).value, s.writer, d.session.writer, s.queue,
                           history, available);
      }
    }
  }

  lemma DroppedWriter(w: Writer, w': Writer, queue: seq<ServerMsg>, history: seq<Table>, available: bool)
    requires w.Sending? && w.msg.Data? && w' == (if w.started then w else Idle)
    ensures Statuses(WriterMsgs(w') + WithoutData(queue)) == Statuses(WriterMsgs(w) + queue)
  {
    StatusesWithoutData(queue);
    assert (WriterMsgs(w) + queue)[1..] == queue;
    if w.started {
      assert (WriterMsgs(w') + WithoutData(queue))[1..] == WithoutData(queue);
    } else {
      assert WriterMsgs(w') + WithoutData(queue) == WithoutData(queue);
    }
  }

  lemma DroppedWriterReads(k: Cursor, w: Writer, w': Writer, queue: seq<ServerMsg>, history: seq<Table>, available: bool)
    requires w.Sending? && w.msg.Data? && w' == (if w.started then w else Idle)
    requires ReadAll(history, available, k, WriterMsgs(w) + queue).Some?
    ensures ReadAll(history, available, k, WriterMsgs(w') + WithoutData(queue)) ==
            ReadAll(history, available, k, WriterMsgs(w) + queue)
  {
    assert (WriterMsgs(w) + queue)[1..] == queue;
    ReadWithoutData(history, available, k, queue);
    if w.started {
      assert (WriterMsgs(w') + WithoutData(queue))[1..] == WithoutData(queue);
    } else {
      assert WriterMsgs(w') + WithoutData(queue) == WithoutData(queue);
    }
  }

  /** What the tick that ends in `history` may send: a log over exactly that tick, a dump of its table. */
  predicate TickDataOk(update: Option<seq<Doc>>, dump: Option<seq<Doc>>, history: seq<Table>, available: bool)
    requires |history| > 1
  {
    && (update.Some? ==> available && DataOk(history, |history| - 1, true, update.value))
    && (dump.Some? ==> available && DataOk(history, |history| - 1, false, dump.value))
  }

  /** The messages a tick appends to a stream are readable and end at the new tick. */
  lemma TickedStream(
    k: Cursor, stream: seq<ServerMsg>, s: Session, timestamp: Uint32, update: Option<seq<Doc>>, dump: Option<seq<Doc>>,
    history: seq<Table>, available: bool)
    requires |history| > 1 && TickDataOk(update, dump, history, available)
    requires timestamp == (|history| - 1) % 0x1_0000_0000
    requires var end := ReadAll(history, available, k, stream); end.Some? && SessionMatches(s, end.value, |history| - 2)
    ensures var t := AfterTick(s, timestamp, update, dump);
      && s.queue <= t.queue
      && StreamOk(k, stream + t.queue[|s.queue|..], t, history, available)
  {
    var t := AfterTick(s, timestamp, update, dump);
    var added := t.queue[|s.queue|..];
    var end := ReadAll(history, available, k, stream).value;
    if s.state == Connected {
      StreamSnoc(k, stream, UpdateTick(timestamp), history, available);
      if |added| == 1 {
        assert added == [UpdateTick(timestamp)];
      } else {
        assert added == [UpdateTick(timestamp), added[1]];
        assert stream + added == (stream + [UpdateTick(timestamp)]) + [added[1]];
        StreamSnoc(k, stream + [UpdateTick(timestamp)], added[1], history, available);
      }
    } else {
      assert added == [];
      assert stream + added == stream;
    }
  }

  lemma TickedStatuses(stream: seq<ServerMsg>, s: Session, timestamp: Uint32, update: Option<seq<Doc>>, dump: Option<seq<Doc>>)
    ensures var t := AfterTick(s, timestamp, update, dump);
      s.queue <= t.queue && Statuses(stream + t.queue[|s.queue|..]) == Statuses(stream)
  {
    var t := AfterTick(s, timestamp, update, dump);
    var added := t.queue[|s.queue|..];
    StatusesAppend(stream, added);
    if |added| == 2 {
      assert added[1..] == [added[1]] && added[1..][1..] == [];
      assert Statuses(added[1..]) == 0;
    } else if |added| == 1 {
      assert added[1..] == [];
    }
  }

  /** One more table in the history changes nothing for a link that has not seen it. */
  lemma LongerHistory(c: Client, processed: nat, history: seq<Table>, t: Table, available: bool)
    requires ReplicaOk(c, processed, history, available)
    ensures ReplicaOk(c, processed, history + [t], available)
  {
  }

  lemma TickLinkOk(
    l: Link, timestamp: Uint32, update: Option<seq<Doc>>, dump: Option<seq<Doc>>, history: seq<Table>, t: Table, available: bool)
    requires LinkOk(l, history, available) && |history| > 0
    requires TickDataOk(update, dump, history + [t], available)
    requires timestamp == |history| % 0x1_0000_0000
    ensures LinkOk(TickLink(l, timestamp, update, dump), history + [t], available)
  {
    var s := BeforeTick(l.session);
    var m := l.(session := s);
    var d := TickLink(l, timestamp, update, dump);
    StoppedStream(l, history, available);
    TickedStatuses(Stream(m), s, timestamp, update, dump);
    assert Stream(d) == Stream(m) + d.session.queue[|s.queue|..];
    LongerHistory(l.client, l.processed, history, t, available);
    if l.client.state != Disconnected {
      ReadLongerHistory(history, t, available, l.cursor, Stream(m));
      TickedStream(l.cursor, Stream(m), s, timestamp, update, dump, history + [t], available);
    }
  }

  // ---------------------------------------------------------------- one tick on the system

  lemma TickDataOfSystem(s: System, rows: seq<Row>, order: seq<Connection>)
    requires SystemOk(s) && IsOrder(CollectedSerializer(s, rows).storage.conns, order)
    ensures var ser := CollectedSerializer(s, rows);
      && StoreOk(ser.storage) && Grows(s.ser.storage, ser.storage)
      && (!(s.available && ser.enabled) ==> ser.log == [])
      && TickDataOk(TickUpdate(s, rows), TickDump(s, rows, order), s.history + [ser.storage.conns], s.available)
  {
    var ser := CollectedSerializer(s, rows);
    TickIsCovered(s.collector, s.ser, rows);
    DumpIsTable(ser.storage.conns, order);
    hide CollectSerializer, LogCovers, StoreOk, Grows, Meaning;
  }

  lemma TickOk(s: System, rows: seq<Row>, order: seq<Connection>)
    requires SystemOk(s) && IsOrder(CollectedSerializer(s, rows).storage.conns, order)
    ensures SystemOk(TickSystem(s, rows, order))
  {
    var t := TickSystem(s, rows, order);
    var ser := CollectedSerializer(s, rows);
    TickDataOfSystem(s, rows, order);
    forall i | 0 <= i < |t.links| ensures LinkOk(t.links[i], t.history, t.available) {
      TickLinkOk(s.links[i], t.timestamp, TickUpdate(s, rows), TickDump(s, rows, order), s.history, ser.storage.conns, s.available);
    }
  }

  /** The table that a tick publishes is the one that the events since the last tick and the rows of the dump describe. */
  lemma TickTable(s: System, rows: seq<Row>, order: seq<Connection>)
    requires SystemOk(s) && s.available && IsOrder(CollectedSerializer(s, rows).storage.conns, order)
    ensures var t := TickSystem(s, rows, order).history;
      |t| == |s.history| + 1 && TableAfter(s.history[|s.history| - 1], s.collector, rows, t[|t| - 1])
  {
    CollectedIsTable(s.collector, s.ser, rows);
    hide TableAfter;
  }

  // ---------------------------------------------------------------- every step, every run

  lemma NewLinkOk(c: Client, history: seq<Table>, available: bool)
    requires CanConnect(c) && |history| > 0
    ensures LinkOk(NewLink(c), history, available)
  {
    var l := NewLink(c);
    assert Stream(l) == [Banner(VERSION)];
    assert Stream(l)[1..] == [];
  }

  lemma ReplacedOk(s: System, i: nat, l: Link, enable: bool)
    requires SystemOk(s) && i < |s.links| && LinkOk(l, s.history, s.available)
    ensures SystemOk(s.(links := s.links[i := l]))
    ensures SystemOk(s.(links := s.links[i := l], ser := SetEnabled(s.ser, enable)))
  {
  }

  lemma KernelOk(s: System, e: Event)
    requires SystemOk(s)
    ensures SystemOk(After(s, Kernel(e)))
  {
    var (k, ser) := KernelEvent(s.collector, s.ser, e);
    assert EventsInterned(s.collector.events, ser.storage);
  }

  lemma ServeStepOk(s: System, i: nat)
    requires SystemOk(s) && i < |s.links| && CanServe(s.links[i])
    ensures SystemOk(After(s, Serve(i)))
  {
    var l := s.links[i];
    ServeOk(l, s.history, s.available, s.ser);
    var (d, ser) := ServeLink(l, s.available, s.ser, |s.history| - 1);
    assert ser == s.ser || ser == SetEnabled(s.ser, true);
    ReplacedOk(s, i, d, true);
  }

  lemma StepOk(s: System, step: Step)
    requires SystemOk(s)
    ensures SystemOk(After(s, step))
  {
    hide LinkOk, LinkStep, DeliverLink, ServeLink, TickSystem, KernelEvent, NewLink, IsOrder, CollectedSerializer;
    match step
    case Connect(c) => if CanConnect(c) { NewLinkOk(c, s.history, s.available); }
    case Deliver(i) =>
      if i < |s.links| && CanDeliver(s.links[i]) {
        DeliverOk(s.links[i], s.history, s.available);
        ReplacedOk(s, i, DeliverLink(s.links[i], s.history, s.available), true);
      }
    case Serve(i) => if i < |s.links| && CanServe(s.links[i]) { ServeStepOk(s, i); }
    case Kernel(e) => KernelOk(s, e);
    case RequireRefill =>
    case PauseCollector(p) =>
    case Tick(rows, order) =>
      if IsOrder(CollectedSerializer(s, rows).storage.conns, order) { TickOk(s, rows, order); }
    case _ =>
      if step.i < |s.links| {
        LinkStepOk(s.links[step.i], step, s.history, s.available);
        ReplacedOk(s, step.i, LinkStep(s.links[step.i], step), true);
      }
  }

  lemma {:induction false} RunOk(available: bool, collecting: bool, steps: seq<Step>)
    ensures SystemOk(Run(Initial(available, collecting), steps))
    decreases |steps|
  {
    if steps == [] {
    } else {
      RunOk(available, collecting, steps[..|steps| - 1]);
      StepOk(Run(Initial(available, collecting), steps[..|steps| - 1]), steps[|steps| - 1]);
    }
  }

  /**
    A synchronised client that awaits no data holds the server's table as of the tick whose UPDATE_TICK
    it last acted on; while it awaits data it holds the table of the tick before.
  */
  predicate ReplicaIsCurrent(l: Link, history: seq<Table>) {
    l.client.isSynchronized ==>
      && l.processed < |history|
      && (!l.client.remaining ==> l.client.replica.conns == history[l.processed])
      && (l.client.remaining ==> 0 < l.processed && l.client.replica.conns == history[l.processed - 1])
  }

  predicate ReplicasAreCurrent(s: System) {
    forall i :: 0 <= i < |s.links| ==> ReplicaIsCurrent(s.links[i], s.history)
  }

  /** Synchronisation safety, in every run. */
  lemma SynchronizedMeansEqual(available: bool, collecting: bool, steps: seq<Step>)
    ensures ReplicasAreCurrent(Run(Initial(available, collecting), steps))
  {
    RunOk(available, collecting, steps);
  }

  /** Neither endpoint's onMessage throws on the next message it will read. */
  predicate NothingThrows(s: System) {
    forall i :: 0 <= i < |s.links| ==>
      && (CanDeliver(s.links[i]) ==> ClientOnMessage(s.links[i].client, s.links[i].wire[0]).Next?)
      && (CanServe(s.links[i]) ==>
          ServerOnMessage(s.available, s.ser, s.links[i].session, s.links[i].client.outbox[0]).Served?)
  }

  /**
    Freedom from protocol errors, in every run: handshake order, tick timestamps modulo 2^32, one
    DATA_STATUS per request, flags of DATA messages and the shape of every record are as the reader expects.
  */
  lemma NoMessageThrows(available: bool, collecting: bool, steps: seq<Step>)
    ensures NothingThrows(Run(Initial(available, collecting), steps))
  {
    RunOk(available, collecting, steps);
    var s := Run(Initial(available, collecting), steps);
    forall i | 0 <= i < |s.links|
      ensures CanDeliver(s.links[i]) ==> ClientOnMessage(s.links[i].client, s.links[i].wire[0]).Next?
      ensures CanServe(s.links[i]) ==>
        ServerOnMessage(s.available, s.ser, s.links[i].session, s.links[i].client.outbox[0]).Served?
    {
      if CanDeliver(s.links[i]) { DeliverOk(s.links[i], s.history, s.available); }
      if CanServe(s.links[i]) { ServeOk(s.links[i], s.history, s.available, s.ser); }
    }
  }

  /** A connected client's timestamp is the number of the tick it last acted on, modulo 2^32. */
  predicate TimestampsFollow(s: System) {
    forall i :: 0 <= i < |s.links| && s.links[i].client.state == Connected && s.links[i].client.timestamp != 0 ==>
      s.links[i].processed < |s.history| && s.links[i].client.timestamp == s.links[i].processed % 0x1_0000_0000
  }

  lemma TimestampFollows(available: bool, collecting: bool, steps: seq<Step>)
    ensures TimestampsFollow(Run(Initial(available, collecting), steps))
  {
    RunOk(available, collecting, steps);
  }
}
