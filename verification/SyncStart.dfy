/**
  Every client gets there: from any reachable state a client that connects, or is connected and perhaps paused, can
  be brought to show the server's current table.
*/
module SyncStart {
  import opened Collection
  import opened Protocol
  import opened SyncSystem
  import opened SyncLiveness
  import opened SyncConvergence

  lemma {:induction false} RunJoin(s: System, a: seq<Step>, b: seq<Step>)
    ensures Run(s, a + b) == Run(Run(s, a), b)
    decreases |b|
  {
    if b == [] {
      assert a + b == a;
    } else {
      RunJoin(s, a, b[..|b| - 1]);
      assert (a + b)[..|a + b| - 1] == a + b[..|b| - 1];
    }
  }

  // ---------------------------------------------------------------- at rest

  /** A synchronised client at rest that awaits nothing shows the table that the server has now. */
  lemma RestIsCurrent(s: System, i: nat)
    requires SystemOk(s) && i < |s.links| && Settled(s.links[i])
    requires s.links[i].client.isSynchronized && !s.links[i].client.remaining
    ensures s.links[i].client.replica.conns == s.ser.storage.conns
  {
    assert LinkOk(s.links[i], s.history, s.available);
  }

  predicate NoRefill(s: System) { !(Runs(s.collector) && s.collector.isRefillRequired) }

  /** The client of link i shows the server's current table. */
  predicate Current(s: System, i: nat) {
    && i < |s.links| && s.links[i].client.isSynchronized && !s.links[i].client.remaining
    && s.links[i].client.replica.conns == s.ser.storage.conns
  }

  /** Some round from a settled link without a refill. */
  lemma SomeRound(s: System, i: nat, rows: seq<Row>) returns (r: Round)
    requires SystemLive(s) && i < |s.links| && Settled(s.links[i]) && NoRefill(s)
    ensures r.rows == rows && IsRound(s, r, i) && NoRefill(Run(Ticked(s, r), r.steps))
  {
    var order := OrderExists(CollectedSerializer(s, rows).storage.conns);
    r := RoundExists(s, rows, order, i);
    hide Run, SystemLive, Settled, IsOrder;
  }

  /** A round as steps of the transition system. */
  lemma RoundSteps(s: System, r: Round)
    requires CanTick(s, r)
    ensures Run(s, [Tick(r.rows, r.order)] + r.steps) == Run(Ticked(s, r), r.steps)
  {
    RunCons(s, Tick(r.rows, r.order), r.steps);
  }

  lemma FromRest(s: System, i: nat, rows: seq<Row>, more: seq<Row>) returns (steps: seq<Step>)
    requires SystemLive(s) && i < |s.links| && Settled(s.links[i]) && NoRefill(s)
    ensures Current(Run(s, steps), i)
  {
    var r := SomeRound(s, i, rows);
    RoundResult(s, r, i);
    RoundSteps(s, r);
    var t := Run(Ticked(s, r), r.steps);
    var q := SomeRound(t, i, more);
    RoundResult(t, q, i);
    RoundSteps(t, q);
    RestIsCurrent(Run(Ticked(t, q), q.steps), i);
    var first, second := [Tick(r.rows, r.order)] + r.steps, [Tick(q.rows, q.order)] + q.steps;
    RunJoin(s, first, second);
    steps := first + second;
  }

  // ---------------------------------------------------------------- from anywhere

  lemma TickClearsRefill(s: System, rows: seq<Row>, order: seq<Connections.Connection>, i: nat)
    requires s.available && i < |s.links| && AtWork(s.links[i]) && IsOrder(CollectedSerializer(s, rows).storage.conns, order)
    ensures var t := After(s, Tick(rows, order)); NoRefill(t) && i < |t.links| && AtWork(t.links[i])
  {
    hide IsOrder, CollectedSerializer, TickUpdate, TickDump, WithoutData;
  }

  lemma Resumed(s: System, i: nat)
    requires i < |s.links| && Both(s.links[i])
    ensures var t := After(s, Pause(i, false)); |t.links| == |s.links| && AtWork(t.links[i])
  {
    PauseTakesEffect(s.links[i].client, false);
  }

  lemma DrainThenTick(s: System, i: nat, rows: seq<Row>) returns (steps: seq<Step>)
    requires SystemLive(s) && i < |s.links| && AtWork(s.links[i])
    ensures var t := Run(s, steps); i < |t.links| && Settled(t.links[i]) && NoRefill(t)
  {
    var first := Drain(s, i);
    var m := Run(s, first);
    LiveRun(s, first);
    var order := OrderExists(CollectedSerializer(m, rows).storage.conns);
    TickClearsRefill(m, rows, order, i);
    LiveStep(m, Tick(rows, order));
    var t := After(m, Tick(rows, order));
    var second := Drain(t, i);
    hide After, SystemLive, Settled;
    RunCons(m, Tick(rows, order), second);
    RunJoin(s, first, [Tick(rows, order)] + second);
    steps := first + ([Tick(rows, order)] + second);
  }

  /** The dumps that three ticks bring. */
  datatype Dumps = Dumps(first: seq<Row>, second: seq<Row>, third: seq<Row>)

  /**
    From any reachable state, a client that is connected can be brought to show the current table, paused or not,
    with three ticks, whatever they bring.
  */
  lemma CanCatchUp(s: System, i: nat, dumps: Dumps) returns (steps: seq<Step>)
    requires SystemLive(s) && i < |s.links| && Both(s.links[i])
    ensures Current(Run(s, steps), i)
  {
    Resumed(s, i);
    LiveStep(s, Pause(i, false));
    var t := After(s, Pause(i, false));
    var first := DrainThenTick(t, i, dumps.first);
    LiveRun(t, first);
    var second := FromRest(Run(t, first), i, dumps.second, dumps.third);
    hide After, SystemLive, Settled, Current;
    RunJoin(t, first, second);
    RunCons(s, Pause(i, false), first + second);
    steps := [Pause(i, false)] + (first + second);
  }

  // ---------------------------------------------------------------- the handshake

  lemma MessageSent(s: System, i: nat, m: ServerMsg)
    requires i < |s.links| && s.links[i].wire == [] && s.links[i].session.state != Disconnected
    requires s.links[i].session.queue == [m] && s.links[i].session.writer == Idle
    ensures var t := After(After(s, LoadWriter(i)), SendRest(i));
      && |t.links| == |s.links| && t.history == s.history
      && t.links[i].wire == [m] && t.links[i].client == s.links[i].client
      && t.links[i].session == s.links[i].session.(queue := [], isSendingData := false)
  {
  }

  /** Until the server has greeted, and the client has answered. */
  lemma BannerAnswered(s: System, i: nat)
    requires i < |s.links| && |s.history| > 0
    requires var l := s.links[i];
      && l.client.state == Opening && l.client.expected == ExpectBanner && l.client.outbox == []
      && l.session.state == Opening && l.session.queue == [] && l.session.writer == Idle && l.wire == [Banner(VERSION)]
    ensures var t := After(After(s, Deliver(i)), Serve(i));
      && |t.links| == |s.links|
      && t.links[i].session == s.links[i].session.(state := Connected, queue := [Hello]) && t.links[i].wire == []
      && t.links[i].client == s.links[i].client.(expected := ExpectHello)
  {
    var t := After(s, Deliver(i));
    assert t.links[i].client == s.links[i].client.(expected := ExpectHello, outbox := [ClientHello]);
    assert t.links[i].session == s.links[i].session && t.history == s.history && t.links[i].wire == [];
    hide DeliverLink;
  }

  lemma HelloRead(s: System, i: nat)
    requires i < |s.links|
    requires var l := s.links[i];
      l.client.state == Opening && l.client.expected == ExpectHello && l.session.state == Connected && l.wire == [Hello]
    ensures var t := After(s, Deliver(i)); |t.links| == |s.links| && Both(t.links[i])
  {
    EstablishedKeepsState(s.links[i].client.(
      state := Connected, expected := ExpectNone, timestamp := 0, dataFlags := false, dataUpdateFlags := false));
    hide OnSessionEstablished;
  }

  function Greeting(i: nat): seq<Step> {
    [LoadWriter(i), SendRest(i), Deliver(i), Serve(i), LoadWriter(i), SendRest(i), Deliver(i)]
  }

  /** A new client and the server come to know each other in seven steps. */
  lemma Greeted(s: System, c: Client)
    requires SystemOk(s) && CanConnect(c)
    ensures var t := Run(After(s, Connect(c)), Greeting(|s.links|));
      |t.links| == |s.links| + 1 && Both(t.links[|s.links|])
  {
    var i := |s.links|;
    var s0 := After(s, Connect(c));
    var s1 := After(s0, LoadWriter(i));
    var s2 := After(s1, SendRest(i));
    MessageSent(s0, i, Banner(VERSION));
    var s3 := After(s2, Deliver(i));
    var s4 := After(s3, Serve(i));
    BannerAnswered(s2, i);
    var s5 := After(s4, LoadWriter(i));
    var s6 := After(s5, SendRest(i));
    MessageSent(s4, i, Hello);
    HelloRead(s6, i);
    hide After, CanConnect, SystemOk, Both;
    SevenSteps(s0, LoadWriter(i), SendRest(i), Deliver(i), Serve(i), LoadWriter(i), SendRest(i), Deliver(i));
  }

  lemma SevenSteps(s: System, a: Step, b: Step, c: Step, d: Step, e: Step, f: Step, g: Step)
    ensures Run(s, [a, b, c, d, e, f, g]) == After(After(After(After(After(After(After(s, a), b), c), d), e), f), g)
  {
    hide After;
    LastStep(s, [a, b, c, d, e, f], g);
    LastStep(s, [a, b, c, d, e], f);
    LastStep(s, [a, b, c, d], e);
    LastStep(s, [a, b, c], d);
    LastStep(s, [a, b], c);
    LastStep(s, [a], b);
    LastStep(s, [], a);
    assert [a, b, c, d, e, f] + [g] == [a, b, c, d, e, f, g] && [a, b, c, d, e] + [f] == [a, b, c, d, e, f];
    assert [a, b, c, d] + [e] == [a, b, c, d, e] && [a, b, c] + [d] == [a, b, c, d] && [a, b] + [c] == [a, b, c];
    assert [a] + [b] == [a, b] && [] + [a] == [a];
  }

  lemma LastStep(s: System, steps: seq<Step>, step: Step)
    ensures Run(s, steps + [step]) == After(Run(s, steps), step)
  {
    assert (steps + [step])[..|steps|] == steps;
  }

  /**
    From any reachable state of a server with data, a client that connects can be brought to show the server's
    current table.
  */
  lemma CanSynchronize(collecting: bool, before: seq<Step>, c: Client, dumps: Dumps) returns (steps: seq<Step>)
    requires CanConnect(c)
    ensures var s := Run(Initial(true, collecting), before);
      Current(Run(After(s, Connect(c)), steps), |s.links|)
  {
    var s := Run(Initial(true, collecting), before);
    ReachableLive(collecting, before);
    Greeted(s, c);
    var s0, first := After(s, Connect(c)), Greeting(|s.links|);
    LiveStep(s, Connect(c));
    LiveRun(s0, first);
    var second := CanCatchUp(Run(s0, first), |s.links|, dumps);
    hide After, SystemLive, Current;
    RunJoin(s0, first, second);
    steps := first + second;
  }
}
