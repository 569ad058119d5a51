/**
  The server's end of a connection (ServerSession in Source/ClientServerProtocol.cpp) as an object: its send
  queue, its socket writer and the flags that the server asks for. `View` is the session as the protocol
  model sees it; the bytes on the wire are always whole messages in queue order, up to the one in hand.
*/
module ServerSessions {
  import opened Numbers
  import opened Options
  import opened Protocol
  import opened SyncSystem
  import opened SocketWriter

  /** A serialized message in the send queue; a shared one belongs to somebody else. */
  datatype Packet = Packet(msg: ServerMsg, bytes: Bytes, shared: bool)

  function Msgs(queue: seq<Packet>): seq<ServerMsg> {
    if queue == [] then [] else [queue[0].msg] + Msgs(queue[1..])
  }

  function Concat(packets: seq<Packet>): Bytes {
    if packets == [] then [] else Concat(packets[..|packets| - 1]) + packets[|packets| - 1].bytes
  }

  /** The packets that stay when a transmission is stopped. */
  function KeptPackets(queue: seq<Packet>): seq<Packet> {
    if queue == [] then []
    else if queue[0].msg.Data? then KeptPackets(queue[1..])
    else [queue[0]] + KeptPackets(queue[1..])
  }

  /** `rest` is `history` without some of its DATA messages, in order. */
  predicate Thinned(history: seq<Packet>, rest: seq<Packet>) {
    if history == [] then rest == []
    else
      var last, before := history[|history| - 1], history[..|history| - 1];
      || (rest != [] && rest[|rest| - 1] == last && Thinned(before, rest[..|rest| - 1]))
      || (last.msg.Data? && Thinned(before, rest))
  }

  lemma {:induction false} MsgsOfKept(queue: seq<Packet>)
    ensures Msgs(KeptPackets(queue)) == WithoutData(Msgs(queue)) && |KeptPackets(queue)| == |WithoutData(Msgs(queue))|
    ensures |Msgs(queue)| == |queue|
    decreases |queue|
  {
    if queue == [] {
    } else {
      MsgsOfKept(queue[1..]);
      assert Msgs(queue)[1..] == Msgs(queue[1..]);
      if !queue[0].msg.Data? { assert KeptPackets(queue)[1..] == KeptPackets(queue[1..]); }
    }
  }

  lemma {:induction false} MsgsMore(queue: seq<Packet>, p: Packet)
    ensures Msgs(queue + [p]) == Msgs(queue) + [p.msg]
    decreases |queue|
  {
    if queue == [] {
      assert queue + [p] == [p] && [p][1..] == [];
    } else {
      assert (queue + [p])[1..] == queue[1..] + [p];
      MsgsMore(queue[1..], p);
    }
  }

  lemma MsgsFirst(queue: seq<Packet>)
    requires queue != []
    ensures Msgs(queue) != [] && Msgs(queue)[0] == queue[0].msg && Msgs(queue)[1..] == Msgs(queue[1..])
  {
  }

  lemma ConcatMore(packets: seq<Packet>, p: Packet)
    ensures Concat(packets + [p]) == Concat(packets) + p.bytes
  {
    assert (packets + [p])[..|packets|] == packets;
  }

  lemma {:induction false} ConcatFirst(packets: seq<Packet>)
    requires packets != []
    ensures Concat(packets) == packets[0].bytes + Concat(packets[1..])
    decreases |packets|
  {
    if |packets| == 1 {
      assert packets[..0] == [] && packets[1..] == [];
    } else {
      var rest, last := packets[..|packets| - 1], packets[|packets| - 1];
      ConcatFirst(rest);
      assert packets == rest + [last] && packets[1..] == rest[1..] + [last];
      ConcatMore(rest, last);
      ConcatMore(rest[1..], last);
      hide Concat;
    }
  }

  lemma QueuedThinned(history: seq<Packet>, rest: seq<Packet>, p: Packet)
    requires Thinned(history, rest)
    ensures Thinned(history + [p], rest + [p])
  {
    assert (history + [p])[..|history|] == history && (rest + [p])[..|rest|] == rest;
  }

  /** One DATA message less. */
  lemma {:induction false} DroppedThinned(history: seq<Packet>, a: seq<Packet>, p: Packet, b: seq<Packet>)
    requires Thinned(history, a + [p] + b) && p.msg.Data?
    ensures Thinned(history, a + b)
    decreases |history|
  {
    var rest := a + [p] + b;
    assert history != [];
    var last, before := history[|history| - 1], history[..|history| - 1];
    if rest[|rest| - 1] == last && Thinned(before, rest[..|rest| - 1]) {
      if b == [] {
        assert a + b == a == rest[..|rest| - 1];
      } else {
        var c := b[..|b| - 1];
        assert rest[..|rest| - 1] == a + [p] + c;
        DroppedThinned(before, a, p, c);
        assert (a + b)[..|a + b| - 1] == a + c;
      }
    } else {
      DroppedThinned(before, a, p, b);
    }
  }

  lemma {:induction false} StoppedThinned(history: seq<Packet>, a: seq<Packet>, queue: seq<Packet>)
    requires Thinned(history, a + queue)
    ensures Thinned(history, a + KeptPackets(queue))
    decreases |queue|
  {
    hide Thinned;
    if queue == [] {
      assert KeptPackets(queue) == queue;
    } else {
      if queue[0].msg.Data? {
        assert a + queue == a + [queue[0]] + queue[1..];
        DroppedThinned(history, a, queue[0], queue[1..]);
        StoppedThinned(history, a, queue[1..]);
      } else {
        assert a + queue == (a + [queue[0]]) + queue[1..];
        StoppedThinned(history, a + [queue[0]], queue[1..]);
        assert (a + [queue[0]]) + KeptPackets(queue[1..]) == a + KeptPackets(queue);
      }
    }
  }

  /** Sending as the transition system has it, one step after another. */
  predicate IsSendStep(step: Step) { step.LoadWriter? || step.SendPart? || step.SendRest? }

  function SendAll(l: Link, steps: seq<Step>): Link
    decreases |steps|
  {
    if steps == [] then l else LinkStep(SendAll(l, steps[..|steps| - 1]), steps[|steps| - 1])
  }

  /** A session whose writer is free takes the next message, or stops sending data. */
  function Loaded(s: Session): Session {
    if s.queue == [] then s.(isSendingData := false)
    else s.(writer := Sending(s.queue[0], false), isSendingData := s.queue[0].Data?, queue := s.queue[1..])
  }

  lemma PartSession(l: Link)
    requires l.session.state != Disconnected && l.session.writer.Sending?
    ensures LinkStep(l, SendPart(0)).session == l.session.(writer := Sending(l.session.writer.msg, true))
  {
  }

  lemma FreedSession(l: Link, freed: Session)
    requires l.session.state != Disconnected && freed == l.session.(writer := Idle)
    ensures LinkStep(l, if l.session.writer.Sending? then SendRest(0) else Step.LoadWriter(0)).session == Loaded(freed)
  {
  }

  lemma SendMore(l: Link, steps: seq<Step>, step: Step)
    ensures SendAll(l, steps + [step]) == LinkStep(SendAll(l, steps), step)
  {
    assert (steps + [step])[..|steps|] == steps;
  }

  lemma Uncut(a: Bytes, b: Bytes, end: Bytes)
    requires a + end == b + end
    ensures a == b
  {
    assert |a| == |b|;
    assert (a + end)[..|a|] == a && (b + end)[..|b|] == b;
  }

  const CLOSING_TTL := 4

  class ServerSession {
    var state: SessionState
    var dataFlags: bool
    var dataUpdateFlags: bool
    var isSendingData: bool
    var sessionTTL: nat
    var queue: seq<Packet>
    const writer: StreamWriter
    /** Everything ever queued, and what the writer began with, but for messages dropped before their first byte. */
    ghost var history: seq<Packet>
    ghost var begun: seq<Packet>

    ghost function WriterView(): Writer
      reads this, writer
    {
      if state == Disconnected || writer.msgType == NoMessage || begun == [] then Idle
      else Sending(begun[|begun| - 1].msg, writer.msgType == Buffered || writer.dataPos > 0)
    }

    /** The session as the protocol model sees it. */
    ghost function View(): Session
      reads this, writer
    {
      Session(state, dataFlags, dataUpdateFlags, isSendingData, Msgs(queue), WriterView())
    }

    /** The wire and what is left of the message in hand are the messages begun, byte for byte and in order. */
    ghost predicate BytesOk()
      reads this, writer
    {
      && writer.Valid() && (writer.IsSending() ==> begun != [])
      && writer.wire + writer.Remainder() == Concat(begun)
      && (writer.msgType == Own || writer.msgType == Shared ==> begun != [] && writer.data == begun[|begun| - 1].bytes)
    }

    ghost predicate Valid()
      reads this, writer
    {
      && (state != Disconnected ==> BytesOk() && Thinned(history, begun + queue))
      && writer.Valid()
      && (isSendingData ==> state != Disconnected && writer.IsSending() && begun[|begun| - 1].msg.Data?)
      && (state != Disconnected && writer.msgType == Shared && begun[|begun| - 1].msg.Data? ==> isSendingData)
      && (state == Disconnected ==> queue == [])
    }

    /** No transmission of a shared DATA message, whose owner may rewrite it, is in progress. */
    ghost predicate MayRewriteData()
      reads this, writer
    {
      state != Disconnected && writer.msgType == Shared ==> begun != [] && !begun[|begun| - 1].msg.Data?
    }

    /** A session on an accepted socket: the banner is queued. */
    constructor (banner: Packet)
      requires banner.msg == Banner(VERSION)
      ensures Valid() && fresh(writer) && View() == NewSession() && MayRewriteData()
      ensures history == [banner]
    {
      state, dataFlags, dataUpdateFlags, isSendingData, sessionTTL := Opening, false, false, false, 0;
      writer := new StreamWriter();
      queue, begun, history := [banner], [], [banner];
      new;
      assert [banner][1..] == [];
      assert Msgs([banner]) == [Banner(VERSION)];
      assert [banner][..0] == [] && begun + queue == [banner];
    }

    /** sendMessage and sendSharedMessage. */
    method Enqueue(p: Packet)
      requires Valid() && state != Disconnected
      modifies this`queue, this`history
      ensures Valid() && View() == old(View()).(queue := old(View()).queue + [p.msg])
      ensures history == old(history) + [p] && queue == old(queue) + [p]
    {
      hide Thinned, Concat, Msgs;
      QueuedThinned(history, begun + queue, p);
      MsgsMore(queue, p);
      assert begun + (queue + [p]) == (begun + queue) + [p];
      queue := queue + [p];
      history := history + [p];
    }

    method QuickDisconnect()
      requires Valid()
      modifies this`state, this`isSendingData, this`queue
      ensures Valid() && View() == SessionDrop(old(View())) && MayRewriteData()
      ensures state == Disconnected && queue == [] && !isSendingData
    {
      state := Disconnected;
      isSendingData := false;
      queue := [];
    }

    method Disconnect(bye: Packet)
      requires Valid() && bye.msg == ServerBye
      modifies this`state, this`isSendingData, this`queue, this`history, this`sessionTTL
      ensures Valid() && View() == SessionDisconnect(old(View()))
      ensures old(state) == Connected ==> state == Closing && queue == old(queue) + [bye]
      ensures old(state) == Opening ==> state == Disconnected
      ensures sessionTTL == if old(state) == Connected then CLOSING_TTL else old(sessionTTL)
    {
      hide Thinned, Concat, Msgs;
      if state == Connected {
        state := Closing;
        sessionTTL := CLOSING_TTL;
        Enqueue(bye);
      } else if state == Opening {
        QuickDisconnect();
      }
    }

    method SendDataStatus(df: bool, uf: bool, bytes: Bytes)
      requires Valid()
      modifies this`dataFlags, this`dataUpdateFlags, this`queue, this`history
      ensures Valid() && View() == Protocol.SendDataStatus(old(View()), df, uf)
    {
      hide Thinned, Concat, Msgs;
      if state == Connected {
        dataFlags := df;
        dataUpdateFlags := uf;
        Enqueue(Packet(DataStatus(df, uf), bytes, false));
      }
    }

    method SendData(data: Packet)
      requires Valid() && data.msg.Data?
      modifies this`queue, this`history
      ensures Valid()
      ensures View() == if old(state) == Connected then old(View()).(queue := old(View()).queue + [data.msg]) else old(View())
    {
      hide Thinned, Concat, Msgs;
      if state == Connected {
        Enqueue(data);
      }
    }

    /** No DATA message is waiting or being sent. */
    ghost predicate IdleOfData()
      reads this, writer
    {
      !isSendingData && forall m :: m in Msgs(queue) ==> !m.Data?
    }

    /**
      stopSendingData: unsent DATA messages are dropped, one that was begun is finished from a copy. Afterwards
      shared DATA messages may be rewritten.
    */
    method StopSendingData() returns (status: bool)
      requires Valid() && state != Disconnected
      modifies this`queue, this`isSendingData, this`dataFlags, this`dataUpdateFlags, this`begun, writer
      ensures Valid() && View() == Protocol.StopSendingData(old(View())) && MayRewriteData()
      ensures writer.wire == old(writer.wire) && history == old(history)
      ensures !isSendingData && dataFlags == (old(dataFlags) && old(IdleOfData())) && dataUpdateFlags == (old(dataUpdateFlags) && old(IdleOfData()))
    {
      StopTakesEffect(View());
      hide Thinned, Concat, Msgs, WithoutData, Protocol.StopSendingData, BytesOk, WriterView;
      status := DropData();
    }

    method DropData() returns (status: bool)
      requires Valid() && state != Disconnected
      modifies this`queue, this`isSendingData, this`dataFlags, this`dataUpdateFlags, this`begun, writer
      ensures Valid() && View() == Protocol.StopSendingData(old(View())) && MayRewriteData()
      ensures writer.wire == old(writer.wire) && history == old(history)
    {
      hide Thinned, Concat, Msgs, KeptPackets, WithoutData;
      var wasSendingData := false;
      MsgsOfKept(queue);
      StoppedThinned(history, begun, queue);
      WithoutDataShorter(Msgs(queue));
      wasSendingData := |KeptPackets(queue)| < |queue|;
      queue := KeptPackets(queue);
      status := true;
      if isSendingData {
        status := StopWriter();
        isSendingData := false;
        wasSendingData := true;
      }
      if wasSendingData {
        dataFlags := false;
        dataUpdateFlags := false;
      }
    }

    lemma WithoutDataShorter(queue: seq<ServerMsg>)
      ensures |WithoutData(queue)| <= |queue|
    {
    }

    method StopWriter() returns (stopped: bool)
      requires BytesOk() && state != Disconnected && Thinned(history, begun + queue)
      requires writer.IsSending() && begun[|begun| - 1].msg.Data?
      modifies this`begun, writer
      ensures BytesOk() && Thinned(history, begun + queue) && writer.msgType != Shared && writer.wire == old(writer.wire)
      ensures WriterView() == if old(WriterView()).started then old(WriterView()) else Idle
    {
      ghost var last, before := begun[|begun| - 1], begun[..|begun| - 1];
      assert begun == before + [last];
      stopped := writer.Stop();
      if stopped {
        assert begun + queue == before + [last] + queue;
        DroppedThinned(history, before, last, queue);
        Uncut(writer.wire, Concat(before), last.bytes);
        begun := before;
      }
    }

    /** The session's part of onMessage; a data request is answered by the server. */
    method OnMessage(m: ClientMsg, hello: Packet) returns (accepted: bool)
      requires Valid() && state != Disconnected && hello.msg == Hello
      modifies this
      ensures Valid()
      ensures m.ClientHello? ==> accepted == (old(state) == Opening)
      ensures m.RequestData? ==> accepted == (old(state) == Connected || old(state) == Closing)
      ensures !accepted || m.RequestData? ==> View() == old(View())
      ensures m.ClientHello? && accepted ==> state == Connected && queue == old(queue) + [hello]
      ensures m.ClientBye? ==> accepted && state == Disconnected
      ensures accepted && !m.RequestData? ==> forall available, ser ::
        ServerOnMessage(available, ser, old(View()), m) == Served(View(), ser)
    {
      hide Thinned, Concat, Msgs;
      match m
      case ClientHello =>
        if state != Opening { return false; }
        Enqueue(hello);
        state := Connected;
        return true;
      case ClientBye =>
        QuickDisconnect();
        return true;
      case RequestData(_, _) => return state == Connected || state == Closing;
    }

    /** One update of the session: the tick goes out, the flags are consumed, a closing session runs out of time. */
    method OnUpdate(tick: Packet)
      requires Valid() && tick.msg.UpdateTick?
      modifies this
      ensures Valid()
      ensures !(old(state) == Closing && old(sessionTTL) == 0) ==>
        View() == AfterTick(old(View()), tick.msg.timestamp, None, None)
      ensures old(state) == Closing && old(sessionTTL) == 0 ==> View() == SessionDrop(AfterTick(old(View()), tick.msg.timestamp, None, None))
      ensures state == old(state) || state == Disconnected
      ensures sessionTTL == if old(state) == Closing && old(sessionTTL) > 0 then old(sessionTTL) - 1 else old(sessionTTL)
    {
      hide Thinned, Concat, Msgs;
      dataFlags := false;
      dataUpdateFlags := false;
      if state == Connected {
        Enqueue(tick);
      } else if state == Closing {
        if sessionTTL > 0 { sessionTTL := sessionTTL - 1; } else { QuickDisconnect(); }
      }
    }

    /** The body of the send loop, once the writer is free: the next message, or an end to sending data. */
    method LoadWriter()
      requires BytesOk() && state != Disconnected && Thinned(history, begun + queue) && !writer.IsSending()
      modifies this`queue, this`isSendingData, this`begun, writer
      ensures Valid() && writer.wire == old(writer.wire) && |queue| == if old(queue) == [] then 0 else |old(queue)| - 1
      ensures View() == Loaded(old(View())) && Outgoing() == old(Outgoing())
    {
      hide Thinned, Concat;
      if queue == [] {
        isSendingData := false;
      } else {
        BeginNext();
      }
    }

    method BeginNext()
      requires BytesOk() && state != Disconnected && Thinned(history, begun + queue) && !writer.IsSending() && queue != []
      modifies this`queue, this`isSendingData, this`begun, writer
      ensures Valid() && writer.wire == old(writer.wire) && queue == old(queue)[1..]
      ensures View() == Loaded(old(View())) && Outgoing() == old(Outgoing())
    {
      hide Thinned, Concat, Msgs;
      ConcatFirst(queue);
      var p := queue[0];
      assert begun + queue == (begun + [p]) + queue[1..];
      ConcatMore(begun, p);
      MsgsFirst(queue);
      isSendingData := p.msg.Data?;
      var accepted := writer.Send(p.bytes, p.shared);
      queue := queue[1..];
      begun := begun + [p];
    }

    /** Everything that was sent and everything that is still to be sent. */
    ghost function Outgoing(): Bytes
      requires writer.Valid()
      reads this`queue, writer
    {
      writer.wire + writer.Remainder() + Concat(queue)
    }

    /** One round of the send loop, in which the socket has `room`; `l` is the session's link before. */
    method SendOnce(room: nat, ghost l: Link) returns (more: bool, ghost steps: seq<Step>)
      requires Valid() && state != Disconnected && l.session == View()
      modifies this`queue, this`isSendingData, this`begun, writer
      ensures Valid() && old(writer.wire) <= writer.wire && |queue| <= |old(queue)| && (more ==> |queue| < |old(queue)|)
      ensures Outgoing() == old(Outgoing()) && |writer.wire| <= |old(writer.wire)| + room
      ensures !more ==> |writer.wire| == |old(writer.wire)| + room || writer.wire == Outgoing()
      ensures |steps| <= 1 && (forall i :: 0 <= i < |steps| ==> IsSendStep(steps[i]))
      ensures (if steps == [] then l else LinkStep(l, steps[0])).session == View()
    {
      hide Thinned, Concat, Msgs, LinkStep, Loaded;
      var wasSending := writer.IsSending();
      var done := writer.DoSend(room);
      if !done {
        PartSession(l);
        steps := if writer.msgType == Buffered || writer.dataPos > 0 then [SendPart(0)] else [];
        return false, steps;
      }
      ghost var freed := View();
      FreedSession(l, freed);
      more := queue != [];
      NothingQueued();
      steps := [if wasSending then SendRest(0) else Step.LoadWriter(0)];
      this.LoadWriter();
    }

    lemma NothingQueued()
      ensures queue == [] ==> Concat(queue) == []
    {
    }

    /**
      The output half of SocketPollHandler: send until the socket takes no more than `room` bytes or the queue is
      empty. On the session it acts as some sequence of the transition system's send steps.
    */
    method HandleOutput(room: nat, ghost l: Link) returns (ghost steps: seq<Step>)
      requires Valid() && state != Disconnected && l.session == View()
      modifies this`queue, this`isSendingData, this`begun, writer
      ensures Valid() && old(writer.wire) <= writer.wire
      ensures Outgoing() == old(Outgoing())
      ensures |writer.wire| == Min(|old(writer.wire)| + room, |old(Outgoing())|)
      ensures (forall i :: 0 <= i < |steps| ==> IsSendStep(steps[i])) && SendAll(l, steps).session == View()
    {
      hide Thinned, Concat, LinkStep, Msgs;
      steps := [];
      var more, left := true, room;
      while more
        invariant Valid() && old(writer.wire) <= writer.wire
        invariant Outgoing() == old(Outgoing()) && left >= 0 && |writer.wire| + left == |old(writer.wire)| + room
        invariant !more ==> left == 0 || writer.wire == Outgoing()
        invariant (forall i :: 0 <= i < |steps| ==> IsSendStep(steps[i])) && SendAll(l, steps).session == View()
        decreases |queue| + if more then 1 else 0
      {
        ghost var step;
        var sent := |writer.wire|;
        more, step := SendOnce(left, SendAll(l, steps));
        left := left - (|writer.wire| - sent);
        if step != [] {
          SendMore(l, steps, step[0]);
          steps := steps + [step[0]];
        }
      }
      assert |writer.wire| <= |Outgoing()|;
    }
  }
}
