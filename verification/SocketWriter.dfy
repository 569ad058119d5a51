/**
  The socket writer (StreamSocketWriter in Source/SocketReaderWriter.hpp): sends one message at a time in as
  many parts as the socket likes, and can be stopped without cutting a message that was begun.
*/
module SocketWriter {
  type Bytes = seq<int>

  datatype MessageType = NoMessage | Own | Shared | Buffered

  class StreamWriter {
    /** Everything the socket has taken so far. */
    var wire: Bytes
    var msgType: MessageType
    var buffer: Bytes
    /** What m_data points to, and how much of it was sent. */
    var data: Bytes
    var dataPos: nat
    var msg: Bytes

    predicate Valid()
      reads this
    {
      && dataPos <= |data|
      && (msgType == Own ==> data == msg)
      && (msgType == Buffered ==> data == buffer)
    }

    predicate IsSending()
      reads this
    {
      msgType != NoMessage
    }

    /** What is still to be sent of the message in hand. */
    function Remainder(): Bytes
      reads this
      requires Valid()
    {
      if msgType == NoMessage then [] else data[dataPos..]
    }

    constructor ()
      ensures Valid() && wire == [] && msgType == NoMessage
    {
      wire, msgType, buffer, data, dataPos, msg := [], NoMessage, [], [], 0, [];
    }

    /** Drops a message of which nothing was sent; a shared message that was begun is copied and finished. */
    method Stop() returns (stopped: bool)
      requires Valid()
      modifies this
      ensures Valid() && wire == old(wire) && msgType != Shared
      ensures stopped <==> old(msgType) == NoMessage || (old(msgType) != Buffered && old(dataPos) == 0)
      ensures stopped ==> msgType == NoMessage
      ensures stopped && old(IsSending()) ==> old(Remainder()) == old(data)
      ensures !stopped ==> IsSending() && Remainder() == old(Remainder())
      ensures !stopped ==> msgType == if old(msgType) == Shared then Buffered else old(msgType)
      ensures !stopped && old(msgType) != Shared ==> data == old(data) && dataPos == old(dataPos)
    {
      match msgType
      case NoMessage => return true;
      case Own =>
        if dataPos != 0 { return false; }
        msgType, msg := NoMessage, [];
        return true;
      case Shared =>
        if dataPos != 0 {
          buffer := data[dataPos..];
          data := buffer;
          dataPos := 0;
          msgType := Buffered;
          return false;
        }
        msgType := NoMessage;
        return true;
      case Buffered => return false;
    }

    /** send and sendShared, by `shared`. */
    method Send(message: Bytes, shared: bool) returns (accepted: bool)
      requires Valid()
      modifies this
      ensures Valid() && wire == old(wire) && accepted == !old(IsSending())
      ensures accepted ==> msgType == (if shared then Shared else Own) && Remainder() == message && dataPos == 0
      ensures !accepted ==> msgType == old(msgType) && data == old(data) && dataPos == old(dataPos)
    {
      if IsSending() { return false; }
      if !shared { msg := message; }
      data := message;
      dataPos := 0;
      msgType := if shared then Shared else Own;
      return true;
    }

    /** One call of the socket's send, which takes `length` bytes or all there are; tells whether the message is finished. */
    method DoSend(length: nat) returns (done: bool)
      requires Valid()
      modifies this
      ensures Valid() && wire + Remainder() == old(wire + Remainder()) && old(wire) <= wire
      ensures done <==> !IsSending()
      ensures !done ==> msgType == old(msgType) && data == old(data) && old(dataPos) <= dataPos < |data|
      ensures done <==> old(!IsSending()) || length >= |old(Remainder())|
      ensures |wire| == |old(wire)| + if length < |old(Remainder())| then length else |old(Remainder())|
    {
      if !IsSending() { return true; }
      var taken := if length < |data| - dataPos then length else |data| - dataPos;
      assert data[dataPos..] == data[dataPos..dataPos + taken] + data[dataPos + taken..];
      wire := wire + data[dataPos..dataPos + taken];
      dataPos := dataPos + taken;
      if dataPos >= |data| {
        if msgType == Own {
          msg := [];
        } else if msgType == Buffered {
          buffer := [];
        }
        msgType := NoMessage;
        return true;
      }
      return false;
    }
  }
}
