/** The values the Socket.IO client of
    socketio/src/asynchronous/client/client.rs passes around: its packets,
    its events, the payloads handed to callbacks and the record of callback
    invocations. The packet codec and the event type's own file are not
    part of this model; the conversion from an event name to an event is a
    given function. */
module SocketTypes {
  import opened Common

  /** The seven Socket.IO packet types. */
  datatype PacketKind = Connect | Disconnect | Event | Ack | ConnectError | BinaryEvent | BinaryAck

  /** A Socket.IO packet: type, namespace, optional JSON text, optional ack
      id, the announced attachment count and the attachments. */
  datatype SocketPacket = SocketPacket(
    kind: PacketKind,
    nsp: string,
    data: Option<string>,
    id: Option<int>,
    attachmentCount: nat,
    attachments: Option<seq<seq<byte>>>)

  /** The events callbacks are registered for. */
  datatype Event = Message | Error | Connect | Close | Custom(name: string)

  /** What a callback receives. */
  datatype Payload = Text(text: string) | Binary(bytes: seq<byte>)

  /** The identity of a registered closure. */
  type Handler = nat

  /** One callback invocation: an event handler, or the callback of an
      outstanding ack. */
  datatype Invocation =
    | EventCall(event: Event, handler: Handler, payload: Payload)
    | AckCall(ackId: int, handler: Handler, payload: Payload)

  /** A JSON value as far as the client looks at it: a string, or anything
      else (kept by its serialised text). */
  datatype Json = JString(value: string) | JOther(text: string)

  /** The parts of serde_json and of the event type the client relies on:
      parsing a text as a JSON array (None when it is not valid JSON or not
      an array), `to_string` of a JSON value, and `&str` into `Event`. */
  datatype Codec = Codec(
    parseArray: string -> Option<seq<Json>>,
    render: Json -> string,
    eventOf: string -> Event)
}
