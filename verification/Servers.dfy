/**
  The server (Source/Server.cpp) as an object: its sessions, its collector and its delta log. One update of the
  object is one tick of the transition system.
*/
module Servers {
  import opened Options
  import opened Connections
  import opened Collection
  import opened Protocol
  import opened SyncSystem
  import opened SocketWriter
  import opened UpdateSerializer
  import opened Conntrack
  import opened ServerSessions

  type Sessions = seq<ServerSession>

  predicate Distinct(cs: Sessions) {
    forall i, j :: 0 <= i < j < |cs| ==> cs[i] != cs[j] && cs[i].writer != cs[j].writer
  }

  /** A session as the tick sees it. */
  datatype Snap = Snap(view: Session, ttl: nat)

  ghost function SnapOf(c: ServerSession): Snap
    reads c, c.writer
  {
    Snap(c.View(), c.sessionTTL)
  }

  /** What the first loop of Server::onUpdate leaves of the sessions. */
  function Prepared(xs: seq<Snap>): seq<Snap> {
    if xs == [] then []
    else
      var last := xs[|xs| - 1];
      Prepared(xs[..|xs| - 1]) +
      if last.view.state == Disconnected then [] else [last.(view := BeforeTick(last.view))]
  }

  /** The sessions that are not gone, in their order. */
  function StillThere(xs: seq<Snap>, cs: Sessions): Sessions
    requires |xs| == |cs|
  {
    if xs == [] then []
    else
      var n := |xs| - 1;
      StillThere(xs[..n], cs[..n]) + if xs[n].view.state == Disconnected then [] else [cs[n]]
  }

  /** Of `cs` the first k were looked at; i of them are still there, in front of the rest. */
  predicate Sifted(xs: seq<Snap>, cs: Sessions, k: nat, i: nat, now: Sessions) {
    && k <= |xs| == |cs|
    && |StillThere(xs[..k], cs[..k])| == i && now == StillThere(xs[..k], cs[..k]) + cs[k..]
  }

  /** One more session was looked at. */
  lemma SiftedMore(xs: seq<Snap>, cs: Sessions, k: nat, i: nat, now: Sessions)
    requires Sifted(xs, cs, k, i, now) && k < |xs|
    ensures i < |now|
    ensures if xs[k].view.state != Disconnected then Sifted(xs, cs, k + 1, i + 1, now)
            else Sifted(xs, cs, k + 1, i, now[..i] + now[i + 1..])
  {
    assert xs[..k + 1][..k] == xs[..k] && cs[..k + 1][..k] == cs[..k];
    assert cs[k..] == [cs[k]] + cs[k + 1..];
  }

  lemma SiftedEnds(xs: seq<Snap>, cs: Sessions, k: nat, i: nat, now: Sessions)
    requires Sifted(xs, cs, k, i, now)
    ensures k == |xs| ==> now == StillThere(xs, cs)
  {
    assert k == |xs| ==> xs[..k] == xs && cs[..k] == cs;
  }

  lemma PreparedMore(xs: seq<Snap>, k: nat)
    requires k < |xs|
    ensures Prepared(xs[..k + 1]) ==
      Prepared(xs[..k]) + if xs[k].view.state == Disconnected then [] else [xs[k].(view := BeforeTick(xs[k].view))]
  {
    assert xs[..k + 1][..k] == xs[..k];
  }

  predicate AnyUpdate(xs: seq<Snap>) { exists k :: 0 <= k < |xs| && WantsUpdate(xs[k].view) }
  predicate AnyDump(xs: seq<Snap>) { exists k :: 0 <= k < |xs| && WantsDump(xs[k].view) }

  lemma AnyMore(xs: seq<Snap>, k: nat)
    requires k < |xs|
    ensures AnyUpdate(xs[..k + 1]) <==> AnyUpdate(xs[..k]) || WantsUpdate(xs[k].view)
    ensures AnyDump(xs[..k + 1]) <==> AnyDump(xs[..k]) || WantsDump(xs[k].view)
  {
    var a, b := xs[..k], xs[..k + 1];
    assert b == a + [xs[k]];
    if AnyUpdate(a) {
      var j :| 0 <= j < |a| && WantsUpdate(a[j].view);
      assert WantsUpdate(b[j].view);
    }
    if AnyDump(a) {
      var j :| 0 <= j < |a| && WantsDump(a[j].view);
      assert WantsDump(b[j].view);
    }
    assert b[k] == xs[k];
  }

  lemma NoneWanted(xs: seq<Snap>)
    requires xs == []
    ensures !AnyUpdate(xs) && !AnyDump(xs)
  {
  }

  /** What a tick makes of a session; a closing session may run out of time in it. */
  function Ticked(x: Snap, timestamp: Uint32, update: Option<seq<Doc>>, dump: Option<seq<Doc>>): Session {
    Expired(x, AfterTick(x.view, timestamp, update, dump))
  }

  /** A closing session whose time is up after the tick is dropped. */
  function Expired(x: Snap, s: Session): Session {
    if x.view.state == Closing && x.ttl == 0 then SessionDrop(s) else s
  }

  /** The sessions that the server still has after a tick that the transition system makes of `links`. */
  function Remaining(xs: seq<Snap>, links: seq<Link>): seq<Session>
    requires |xs| == |links|
  {
    if xs == [] then []
    else
      var n := |xs| - 1;
      Remaining(xs[..n], links[..n]) + if xs[n].view.state == Disconnected then [] else [Expired(xs[n], links[n].session)]
  }

  predicate SnapsOf(xs: seq<Snap>, links: seq<Link>) {
    |xs| == |links| && forall i :: 0 <= i < |xs| ==> links[i].session == xs[i].view
  }

  function TickedAll(xs: seq<Snap>, timestamp: Uint32, update: Option<seq<Doc>>, dump: Option<seq<Doc>>): seq<Session> {
    if xs == [] then []
    else TickedAll(xs[..|xs| - 1], timestamp, update, dump) + [Ticked(xs[|xs| - 1], timestamp, update, dump)]
  }

  lemma {:induction false} TickedAllAt(xs: seq<Snap>, timestamp: Uint32, update: Option<seq<Doc>>, dump: Option<seq<Doc>>, i: nat)
    requires i < |xs|
    ensures |TickedAll(xs, timestamp, update, dump)| == |xs|
    ensures TickedAll(xs, timestamp, update, dump)[i] == Ticked(xs[i], timestamp, update, dump)
    decreases |xs|
  {
    if |xs| == 1 {
    } else {
      TickedAllAt(xs[..|xs| - 1], timestamp, update, dump, if i < |xs| - 1 then i else 0);
    }
  }

  lemma TickedMore(xs: seq<Snap>, x: Snap, timestamp: Uint32, update: Option<seq<Doc>>, dump: Option<seq<Doc>>)
    ensures TickedAll(xs + [x], timestamp, update, dump) == TickedAll(xs, timestamp, update, dump) + [Ticked(x, timestamp, update, dump)]
  {
    assert (xs + [x])[..|xs|] == xs;
  }

  lemma StopKeepsState(s: Session)
    ensures BeforeTick(s).state == s.state
  {
  }

  /** Forgetting sessions and ticking the rest is what the tick does to all links, seen on those that remain. */
  lemma {:induction false} TickRemaining(
    xs: seq<Snap>, before: seq<Link>, after: seq<Link>, timestamp: Uint32, update: Option<seq<Doc>>, dump: Option<seq<Doc>>)
    requires SnapsOf(xs, before) && |after| == |before|
    requires forall i :: 0 <= i < |before| ==> after[i] == TickLink(before[i], timestamp, update, dump)
    ensures TickedAll(Prepared(xs), timestamp, update, dump) == Remaining(xs, after)
    decreases |xs|
  {
    hide BeforeTick, AfterTick;
    if xs == [] {
    } else {
      var n := |xs| - 1;
      TickRemaining(xs[..n], before[..n], after[..n], timestamp, update, dump);
      PreparedMore(xs, n);
      assert xs[..n + 1] == xs;
      StopKeepsState(xs[n].view);
      TickedMore(Prepared(xs[..n]), xs[n].(view := BeforeTick(xs[n].view)), timestamp, update, dump);
      assert Prepared(xs[..n]) + [] == Prepared(xs[..n]);
    }
  }

  lemma SameWishes(xs: seq<Snap>, links: seq<Link>)
    requires SnapsOf(xs, links)
    ensures AnyUpdate(xs) == SomeWantsUpdate(links) && AnyDump(xs) == SomeWantsDump(links)
  {
    hide WantsUpdate, WantsDump;
    if AnyUpdate(xs) {
      var k :| 0 <= k < |xs| && WantsUpdate(xs[k].view);
      assert WantsUpdate(links[k].session);
    }
    if AnyDump(xs) {
      var k :| 0 <= k < |xs| && WantsDump(xs[k].view);
      assert WantsDump(links[k].session);
    }
    if SomeWantsUpdate(links) {
      var k :| 0 <= k < |links| && WantsUpdate(links[k].session);
      assert WantsUpdate(xs[k].view);
    }
    if SomeWantsDump(links) {
      var k :| 0 <= k < |links| && WantsDump(links[k].session);
      assert WantsDump(xs[k].view);
    }
  }

  /** The first loop of Server::onUpdate for one session. */
  method Prepare(c: ServerSession) returns (update: bool, dump: bool)
    requires c.Valid() && c.state != Disconnected
    modifies c, c.writer
    ensures c.Valid() && c.MayRewriteData()
    ensures SnapOf(c) == old(SnapOf(c)).(view := BeforeTick(old(c.View())))
    ensures update == WantsUpdate(old(c.View())) && dump == WantsDump(old(c.View()))
  {
    hide Thinned, ServerSession.WriterView;
    update, dump := false, false;
    if c.isSendingData {
      var status := c.StopSendingData();
    } else if c.dataFlags {
      if c.dataUpdateFlags { update := true; } else { dump := true; }
    }
  }

  /** The second loop for one session. */
  method TickSession(c: ServerSession, tick: Packet, update: Option<Packet>, dump: Option<Packet>)
    requires c.Valid() && tick.msg.UpdateTick?
    requires update.Some? ==> update.value.msg.Data? && update.value.msg.isUpdate
    requires dump.Some? ==> dump.value.msg.Data? && !dump.value.msg.isUpdate
    modifies c, c.writer
    ensures c.Valid()
    ensures c.View() == Ticked(old(SnapOf(c)), tick.msg.timestamp, Items(update), Items(dump))
  {
    hide Thinned, ServerSession.BytesOk, ServerSession.WriterView;
    var dataFlags, dataUpdateFlags := c.dataFlags, c.dataUpdateFlags;
    c.OnUpdate(tick);
    if c.state != Connected || !dataFlags { return; }
    if update.Some? && dataUpdateFlags {
      c.SendData(update.value);
    } else if dump.Some? {
      c.SendData(dump.value);
    }
  }

  function Items(p: Option<Packet>): Option<seq<Doc>>
    requires p.Some? ==> p.value.msg.Data?
  {
    if p.Some? then Some(p.value.msg.items) else None
  }

  class Server {
    const available: bool
    /** The JSON text of a message. */
    const encode: ServerMsg -> Bytes
    var timestamp: Uint32
    var clients: Sessions
    const serializer: ConnectionUpdateSerializer
    const collector: Conntrack

    ghost predicate Valid()
      reads this`clients, clients, set c | c in clients :: c.writer
    {
      collector.callback == serializer && Distinct(clients) && forall i :: 0 <= i < |clients| ==> clients[i].Valid()
    }

    constructor (available: bool, encode: ServerMsg -> Bytes, collector: Conntrack)
      ensures Valid() && clients == [] && timestamp == 0
      ensures this.available == available && this.encode == encode && this.collector == collector
    {
      this.available, this.encode, this.collector := available, encode, collector;
      serializer, timestamp, clients := collector.callback, 0, [];
    }

    /** The sessions look like `xs`. */
    ghost predicate LookLike(xs: seq<Snap>)
      reads this`clients, clients, set c | c in clients :: c.writer
    {
      |xs| == |clients| && forall i :: 0 <= i < |clients| ==> SnapOf(clients[i]) == xs[i]
    }

    /** Midway through the first loop: the sessions before `i` are done, the rest looks like `xs` from `k` on. */
    ghost predicate Half(xs: seq<Snap>, k: nat, i: nat)
      reads this`clients, clients, set c | c in clients :: c.writer
    {
      && i <= |clients| && k <= |xs| && |clients| - i == |xs| - k && |Prepared(xs[..k])| == i
      && Distinct(clients) && (forall j :: 0 <= j < |clients| ==> clients[j].Valid())
      && (forall j :: 0 <= j < i ==> clients[j].MayRewriteData() && SnapOf(clients[j]) == Prepared(xs[..k])[j])
      && (forall j :: i <= j < |clients| ==> SnapOf(clients[j]) == xs[j - i + k])
    }

    /**
      The first loop of onUpdate: sessions that are gone are forgotten, transmissions of old data stopped, and
      the wishes of the others collected. No session is then in the middle of a message that may be rewritten.
    */
    method PrepareAll(ghost xs: seq<Snap>) returns (updates: bool, dumps: bool)
      requires Valid() && LookLike(xs)
      modifies this`clients, clients, set c | c in clients :: c.writer
      ensures Valid() && LookLike(Prepared(xs)) && forall i :: 0 <= i < |clients| ==> clients[i].MayRewriteData()
      ensures forall i :: 0 <= i < |clients| ==> clients[i] in old(clients)
      ensures clients == StillThere(xs, old(clients))
      ensures updates == AnyUpdate(xs) && dumps == AnyDump(xs)
    {
      hide Sifted, ServerSession.Valid, ServerSession.View, ServerSession.MayRewriteData, AnyUpdate, AnyDump, Prepared, SnapOf, Half, StillThere;
      ghost var k: nat, cs := 0, clients;
      NobodyYet(xs, cs);
      updates, dumps := false, false;
      var i: nat := 0;
      HalfStart(xs);
      NoneWanted(xs[..0]);
      while i < |clients|
        invariant i <= |clients| && k <= |xs| && |clients| - i == |xs| - k
        invariant Half(xs, k, i) && Sifted(xs, cs, k, i, clients)
        invariant forall c :: c in clients ==> c in old(clients)
        invariant updates == AnyUpdate(xs[..k]) && dumps == AnyDump(xs[..k])
        decreases |xs| - k
      {
        assert clients[i] in clients;
        i, updates, dumps := PrepareSifted(xs, cs, k, i, updates, dumps);
        k := k + 1;
        HalfBound(xs, k, i);
      }
      HalfEnd(xs, k);
      SiftedEnds(xs, cs, k, i, clients);
      assert xs[..|xs|] == xs;
    }

    lemma NobodyYet(xs: seq<Snap>, cs: Sessions)
      requires |xs| == |cs|
      ensures Sifted(xs, cs, 0, 0, cs)
    {
    }

    lemma HalfStart(xs: seq<Snap>)
      requires Valid() && LookLike(xs)
      ensures Half(xs, 0, 0)
    {
    }

    lemma HalfBound(xs: seq<Snap>, k: nat, i: nat)
      requires Half(xs, k, i)
      ensures i <= |clients| && k <= |xs| && |clients| - i == |xs| - k
    {
    }

    lemma HalfEnd(xs: seq<Snap>, k: nat)
      requires Half(xs, k, |clients|) && collector.callback == serializer
      ensures k == |xs| && Valid() && LookLike(Prepared(xs)) && forall i :: 0 <= i < |clients| ==> clients[i].MayRewriteData()
    {
      assert xs[..|xs|] == xs;
    }

    /** One round of that loop, with a look at who is left. */
    method PrepareSifted(ghost xs: seq<Snap>, ghost cs: Sessions, ghost k: nat, i: nat, updates: bool, dumps: bool)
      returns (next: nat, anyUpdate: bool, anyDump: bool)
      requires Half(xs, k, i) && i < |clients| && k < |xs| && Sifted(xs, cs, k, i, clients)
      requires updates == AnyUpdate(xs[..k]) && dumps == AnyDump(xs[..k])
      modifies this`clients, clients[i], clients[i].writer
      ensures Half(xs, k + 1, next) && Sifted(xs, cs, k + 1, next, clients)
      ensures forall c :: c in clients ==> c in old(clients)
      ensures anyUpdate == AnyUpdate(xs[..k + 1]) && anyDump == AnyDump(xs[..k + 1])
    {
      hide Half, Sifted, WantsUpdate, WantsDump, AnyUpdate, AnyDump;
      SiftedMore(xs, cs, k, i, clients);
      AnyMore(xs, k);
      var kept, update, dump := PrepareNext(xs, k, i);
      next := if kept then i + 1 else i;
      anyUpdate, anyDump := updates || update, dumps || dump;
    }

    /** One round of that loop. */
    method PrepareNext(ghost xs: seq<Snap>, ghost k: nat, i: nat) returns (kept: bool, update: bool, dump: bool)
      requires Half(xs, k, i) && i < |clients|
      modifies this`clients, clients[i], clients[i].writer
      ensures Half(xs, k + 1, if kept then i + 1 else i)
      ensures forall j :: 0 <= j < |clients| ==> clients[j] in old(clients)
      ensures kept == (xs[k].view.state != Disconnected)
      ensures clients == if kept then old(clients) else old(clients)[..i] + old(clients)[i + 1..]
      ensures update == WantsUpdate(xs[k].view) && dump == WantsDump(xs[k].view)
    {
      hide ServerSession.Valid, ServerSession.MayRewriteData, ServerSession.WriterView, BeforeTick, Prepared;
      PreparedMore(xs, k);
      assert SnapOf(clients[i]) == xs[k];
      if clients[i].state == Disconnected {
        clients := clients[..i] + clients[i + 1..];
        return false, false, false;
      }
      update, dump := Prepare(clients[i]);
      return true, update, dump;
    }

    /** The second loop of onUpdate: the tick, and the data that was asked for, to everybody connected. */
    method TickAll(ghost xs: seq<Snap>, tick: Packet, update: Option<Packet>, dump: Option<Packet>)
      requires Valid() && LookLike(xs) && tick.msg.UpdateTick?
      requires update.Some? ==> update.value.msg.Data? && update.value.msg.isUpdate
      requires dump.Some? ==> dump.value.msg.Data? && !dump.value.msg.isUpdate
      modifies clients, set c | c in clients :: c.writer
      ensures Valid() && Views(TickedAll(xs, tick.msg.timestamp, Items(update), Items(dump)))
    {
      hide ServerSession.Valid, ServerSession.View, Ticked, Items;
      for i := 0 to |clients|
        invariant Valid()
        invariant forall j :: 0 <= j < i ==> clients[j].View() == Ticked(xs[j], tick.msg.timestamp, Items(update), Items(dump))
        invariant forall j :: i <= j < |clients| ==> SnapOf(clients[j]) == xs[j]
      {
        TickSession(clients[i], tick, update, dump);
      }
      forall j | 0 <= j < |clients|
        ensures |TickedAll(xs, tick.msg.timestamp, Items(update), Items(dump))| == |xs|
        ensures clients[j].View() == TickedAll(xs, tick.msg.timestamp, Items(update), Items(dump))[j]
      {
        TickedAllAt(xs, tick.msg.timestamp, Items(update), Items(dump), j);
      }
    }

    ghost predicate Views(views: seq<Session>)
      reads this`clients, clients, set c | c in clients :: c.writer
    {
      |views| == |clients| && forall i :: 0 <= i < |clients| ==> clients[i].View() == views[i]
    }

    /** Between the loops: the collector runs, and the messages asked for are built. */
    method Collect(rows: seq<Row>, updates: bool, dumps: bool)
      returns (update: Option<Packet>, dump: Option<Packet>, ghost order: seq<Connection>)
      requires collector.callback == serializer
      modifies collector, serializer
      ensures var ser := if available then CollectSerializer(old(collector.View()), old(serializer.View()), rows) else old(serializer.View());
        && IsOrder(ser.storage.conns, order)
        && serializer.View() == (if available && ser.enabled then ser.(log := []) else ser)
        && update == (if available && ser.enabled && updates then Some(DataPacket(true, ser.log)) else None)
        && dump == (if available && dumps then Some(DataPacket(false, DumpDocs(ser.storage.conns, order))) else None)
      ensures collector.View() == if available then CollectCollector(old(collector.View())) else old(collector.View())
    {
      hide CollectSerializer, CollectCollector;
      update, dump := None, None;
      if available {
        collector.OnUpdate(rows);
        if serializer.isEnabled {
          var docs := serializer.Build();
          if updates { update := Some(DataPacket(true, docs)); }
        }
        if dumps {
          var docs;
          docs, order := BuildDump(serializer.storage.conns);
          dump := Some(DataPacket(false, docs));
        } else {
          order := OrderExists(serializer.storage.conns);
        }
      } else {
        order := OrderExists(serializer.storage.conns);
      }
    }

    /** A shared DATA message. */
    function DataPacket(isUpdate: bool, items: seq<Doc>): Packet {
      Packet(Data(isUpdate, items), encode(Data(isUpdate, items)), true)
    }

    /** Server::onUpdate is one tick of the transition system. */
    method OnUpdate(ghost s: System, ghost xs: seq<Snap>, rows: seq<Row>) returns (ghost order: seq<Connection>)
      requires Valid() && LookLike(xs) && SnapsOf(xs, s.links)
      requires s.available == available && s.timestamp == timestamp
      requires s.ser == serializer.View() && s.collector == collector.View()
      modifies this, clients, set c | c in clients :: c.writer
      modifies collector, serializer
      ensures Valid() && IsOrder(CollectedSerializer(s, rows).storage.conns, order)
      ensures var t := TickSystem(s, rows, order);
        && Views(Remaining(xs, t.links))
        && timestamp == t.timestamp && serializer.View() == t.ser && collector.View() == t.collector
      ensures clients == StillThere(xs, old(clients))
    {
      hide ServerSession.Valid, ServerSession.View, ServerSession.MayRewriteData, Prepared, TickedAll, Remaining, LookLike, Views, StillThere;
      hide CollectSerializer, CollectCollector, AnyUpdate, AnyDump, SomeWantsDump, SomeWantsUpdate, IsOrder, DumpDocs, AfterTick, BeforeTick;
      SameWishes(xs, s.links);
      var updates, dumps := PrepareAll(xs);
      timestamp := NextTimestamp(timestamp);
      var tick := Packet(UpdateTick(timestamp), encode(UpdateTick(timestamp)), true);
      var update, dump;
      update, dump, order := Collect(rows, updates, dumps);
      ghost var t := TickSystem(s, rows, order);
      TickRemaining(xs, s.links, t.links, timestamp, TickUpdate(s, rows), TickDump(s, rows, order));
      TickAll(Prepared(xs), tick, update, dump);
    }

    /** onSessionDataRequest. */
    method OnSessionDataRequest(c: ServerSession, dataFlags: bool, updateFlags: bool)
      requires Valid() && c in clients && c.state == Connected
      modifies c, serializer
      ensures Valid()
      ensures OnDataRequest(available, old(serializer.View()), old(c.View()), dataFlags, updateFlags) ==
        Served(c.View(), serializer.View())
    {
      hide ServerSession.Valid, ServerSession.View;
      var d, u := dataFlags && available, updateFlags && available;
      c.SendDataStatus(d, u, encode(DataStatus(d, u)));
      if d && u { serializer.SetSerializationEnabled(true); }
    }

    /** A client that was accepted. */
    method OnAccept()
      requires Valid()
      modifies this`clients
      ensures Valid() && |clients| == |old(clients)| + 1 && clients[..|old(clients)|] == old(clients)
      ensures fresh(clients[|old(clients)|]) && clients[|old(clients)|].View() == NewSession()
    {
      hide ServerSession.Valid, ServerSession.View;
      var c := new ServerSession(Packet(Banner(VERSION), encode(Banner(VERSION)), true));
      clients := clients + [c];
    }
  }
}
