/** A typed channel over the network's handler ids (Channels/NetworkChannel.cs):
    one message object, one writer that holds the last message written, and a
    list of message handlers fed in registration order. The message type's own
    `Serialize`/`Deserialize` are the pure functions `serialize`/`deserialize`;
    handlers and connections are opaque references. */
module Channels {
  import opened NetTypes
  import opened Wire

  /** A registered `MessageHandler<TMessage>`. */
  type MessageHandlerRef = nat

  /** What the channel does outside its fields: raising `DataSent`, or invoking a handler. */
  datatype ChannelEffect<M> =
    | DataSent(channelId: int, connection: int, data: seq<byte>, sendType: SendType)
    | HandlerInvoked(handler: MessageHandlerRef, connection: int, message: M)

  /** `NetworkChannel.InvalidId`. */
  const InvalidId: int := -1

  /** The handlers of `handlers` invoked in order with `(connection, message)`. */
  function Invocations<M>(handlers: seq<MessageHandlerRef>, connection: int, message: M): (r: seq<ChannelEffect<M>>)
    ensures |r| == |handlers|
    ensures forall k :: 0 <= k < |handlers| ==> r[k] == HandlerInvoked(handlers[k], connection, message)
  {
    if handlers == [] then []
    else Invocations(handlers[..|handlers| - 1], connection, message) + [HandlerInvoked(handlers[|handlers| - 1], connection, message)]
  }

  class NetworkChannel<M> {
    const key: string
    const sendType: SendType
    var id: int
    var message: M
    var messageHandlers: seq<MessageHandlerRef>
    const writer: Writer
    const serialize: M -> seq<byte>
    const deserialize: seq<byte> -> M
    ghost var effects: seq<ChannelEffect<M>>

    constructor (key: string, message: M, sendType: SendType, serialize: M -> seq<byte>, deserialize: seq<byte> -> M)
      ensures this.key == key && this.message == message && this.sendType == sendType
      ensures this.serialize == serialize && this.deserialize == deserialize
      ensures id == InvalidId && !IsReady() && messageHandlers == [] && effects == []
      ensures fresh(writer) && writer.data == []
    {
      this.key := key;
      this.message := message;
      this.sendType := sendType;
      this.serialize := serialize;
      this.deserialize := deserialize;
      id := InvalidId;
      messageHandlers := [];
      writer := new Writer();
      effects := [];
    }

    /** `IsReady`: an id has been assigned. */
    predicate IsReady()
      reads this
    {
      id != InvalidId
    }

    method SetId(value: int)
      modifies this`id
      ensures id == value && (IsReady() <==> value != InvalidId)
    {
      id := value;
    }

    /** `Write(message)`: the writer is reset first, so it holds exactly the last
        message's bytes and nothing of an earlier one. */
    method Write(m: M)
      modifies writer
      ensures writer.data == serialize(m)
    {
      writer.Reset();
      writer.PutBytes(serialize(m));
    }

    /** `Write()`: writes the current message. */
    method WriteCurrent()
      modifies writer
      ensures writer.data == serialize(message)
    {
      Write(message);
    }

    /** `SendNoWrite`: raises `DataSent` with the current id, the connection, the
        writer's bytes and the channel's send type; the writer is left as it is. */
    method SendNoWrite(connection: int)
      modifies this`effects
      ensures effects == old(effects) + [DataSent(id, connection, writer.data, sendType)]
    {
      effects := effects + [DataSent(id, connection, writer.data, sendType)];
    }

    /** `Send(connection, message)`: `Write(message)` then `SendNoWrite(connection)`;
        what is sent is the message's bytes alone. */
    method Send(connection: int, m: M)
      modifies writer, this`effects
      ensures writer.data == serialize(m)
      ensures effects == old(effects) + [DataSent(id, connection, serialize(m), sendType)]
    {
      Write(m);
      SendNoWrite(connection);
    }

    /** `Send(connection)`: sends the current message. */
    method SendCurrent(connection: int)
      modifies writer, this`effects
      ensures writer.data == serialize(message)
      ensures effects == old(effects) + [DataSent(id, connection, serialize(message), sendType)]
    {
      Send(connection, message);
    }

    /** `RegisterHandler`: appended to the list, duplicates included. */
    method RegisterHandler(handler: MessageHandlerRef)
      modifies this`messageHandlers
      ensures messageHandlers == old(messageHandlers) + [handler]
    {
      messageHandlers := messageHandlers + [handler];
    }

    /** `OnDataReceived`: the payload is deserialized into the message, then every
        registered handler is invoked once per registration, in registration order,
        with that message. */
    method OnDataReceived(connection: int, payload: seq<byte>)
      modifies this`message, this`effects
      ensures message == deserialize(payload)
      ensures effects == old(effects) + Invocations(messageHandlers, connection, deserialize(payload))
    {
      message := deserialize(payload);
      for i := 0 to |messageHandlers|
        invariant message == deserialize(payload)
        invariant effects == old(effects) + Invocations(messageHandlers[..i], connection, message)
      {
        assert messageHandlers[..i + 1][..i] == messageHandlers[..i];
        effects := effects + [HandlerInvoked(messageHandlers[i], connection, message)];
      }
      assert messageHandlers[..|messageHandlers|] == messageHandlers;
    }
  }
}
