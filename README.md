# rust-socketio client core, modelled in Dafny

This project models the decision and update logic at the centre of the
rust-socketio client, an Engine.IO / Socket.IO client written in Rust, and
proves what that logic promises. The network, the clock, randomness, JSON and
the packet codecs are inputs or given functions. Callbacks are an append-only
log of invocations.

The model covers five pieces of the repository.

- **WebSocket transport** (`engineio/src/async_transports/mod.rs`), in module
  `WebsocketTransport`.
  - The upgrade probe of Engine.IO protocol revision 4: send `Ping "probe"`
    as text, expect exactly `Pong "probe"`, then send an empty `Upgrade`.
  - The choice of frame type in `emit`. A text frame must carry valid UTF-8,
    as section 5.6 of RFC 6455 requires; module `Utf8` implements the
    well-formedness table 3-7 of the Unicode Standard.
  - The prefixing of inbound binary frames in `poll`.
  - The socket is a scripted sequence of inbound items plus a log of outbound
    frames.
- **HTTP long-polling transport client** (`src/transport.rs`), in module
  `PollingTransport`, with the query paths in module `Query`.
  - The handshake in `open`.
  - The session URL built for `emit` and `poll`.
  - The POST of `emit`.
  - The ordered dispatch loop of `poll`, which ends in a `todo!()` on every
    control packet.
  - Every Rust panic is an explicit outcome: an `unwrap` on `None`, a
    `todo!()`, and slicing a string off a character boundary.
- **Engine.IO socket lifecycle** (`src/engineio/socket.rs`), in module
  `Engine`.
  - A two-state guard: callbacks and `bind` only before connecting, emits
    only after.
  - It is stated as a pure transition function `Apply`. The class
    `EngineSocket` is proved against it, method by method.
- **Socket.IO client** (`socketio/src/asynchronous/client/client.rs`), in
  modules `SocketClient` and `Acks`.
  - Connecting and disconnecting a namespace.
  - Emitting with an ack.
  - The routing of incoming packets by namespace and type.
  - The event and payload chosen from a JSON array, and quote stripping for
    binary events.
  - The outstanding-ack table: matching, timeout check and in-place removal.
  - The namespace filter of `poll_next`.
- **Public socket builder** (`src/lib.rs`), in module `Facade`.
  - Namespace validation: a namespace must start with `/`.
  - The default namespace `/`.
  - Handing out the socket once it has connected.

Modules `Common`, `EnginePacket` and `SocketTypes` hold the shared types.
`EnginePacket` covers the seven Engine.IO packet kinds and the single-packet
text encoding: the kind digit, then the payload.

Each source file is modelled as its own text says, and the files come from
different stages of the repository.

- `src/transport.rs`, `open` never sets the connected flag. Its `emit` and
  `poll` refuse with `ActionBeforeOpen` exactly when the flag *is* set. The
  model keeps that guard as written (`PollingTransport.OpenThenEmit` shows an
  emit after `open` passing it). A "corrected" guard would refuse every emit,
  because nothing sets the flag.
- `PacketId::Message as u8` is the raw enumeration value 4, not the digit
  `'4'`. This is what `poll` on the WebSocket transport puts in front of a
  binary frame.
- The code does not translate errors into one session-level error type: each
  layer passes on the errors of the layer below. The model follows the code.
- On a failed probe, `upgrade` returns an error (`IllegalWebsocketUpgrade` or
  `InvalidPacket`). What a caller does with it is not in the modelled code.

## Model

| member | source | states |
|---|---|---|
| Utf8.AsciiIsUtf8 | engineio/src/async_transports/mod.rs:43-45 | bytes below 0x80 are always well-formed UTF-8, so `from_utf8` cannot fail on an ASCII packet |
| Utf8.BadLeadByteIsInvalid | engineio/src/async_transports/mod.rs:72 | a sequence starting with a byte that can never lead a UTF-8 scalar is rejected whatever follows |
| EnginePacket.Encode | engineio/src/async_transports/mod.rs:44 | an encoded packet is its kind's ASCII digit followed by the payload unchanged, one byte longer than the payload |
| EnginePacket.Decode | engineio/src/async_transports/mod.rs:53 | decoding succeeds exactly on input that starts with one of the seven kind digits |
| EnginePacket.DecodeEncode | engineio/src/async_transports/mod.rs:53 | decoding an encoded packet gives the packet back |
| EnginePacket.EncodeDecode | engineio/src/async_transports/mod.rs:53 | whatever decodes to a packet is exactly that packet's encoding |
| EnginePacket.MatchesEncoding | engineio/src/async_transports/mod.rs:53 | comparing raw bytes with an encoded packet is the same test as decoding them to that packet |
| EnginePacket.EncodeInjective | engineio/src/async_transports/mod.rs:53 | two packets with the same encoding are the same packet |
| EnginePacket.AsciiPacketIsUtf8 | engineio/src/async_transports/mod.rs:43-45 | a packet with an ASCII payload encodes to valid UTF-8 |
| EnginePacket.Ordinal | engineio/src/async_transports/mod.rs:87 | each packet kind has an enumeration value below 7, and the value is 4 exactly for Message |
| EnginePacket.MessageDiscriminant | engineio/src/async_transports/mod.rs:87 | the byte written before a binary frame, `PacketId::Message as u8`, is 4 and differs from the digit '4' of the text encoding |
| EnginePacket.Digit | engineio/src/async_transports/mod.rs:44 | each packet kind's wire digit is one of the ASCII digits '0' to '6' |
| WebsocketTransport.FrameFor | engineio/src/async_transports/mod.rs:69-73 | a binary attachment becomes a binary frame; otherwise the data becomes a text frame exactly when it is valid UTF-8, and an `InvalidUtf8` error otherwise; the bytes are never altered |
| WebsocketTransport.InboundBytesShape | engineio/src/async_transports/mod.rs:84-93 | a binary frame `d` becomes `[4] + d`, of length `|d|+1`; a text frame's bytes pass unchanged |
| WebsocketTransport.ProbeVerdict | engineio/src/async_transports/mod.rs:48-55 | the upgrade may proceed exactly when a frame arrived that decodes to `Pong "probe"`; no reply gives `IllegalWebsocketUpgrade`, a read error gives the socket error, any other frame gives `InvalidPacket` |
| WebsocketTransport.ProbeFrames | engineio/src/async_transports/mod.rs:43-45 | the ping probe and the Upgrade packet both go out as text frames |
| WebsocketTransport.ProbeAnswered | engineio/src/async_transports/mod.rs:53 | a text frame carrying the encoded pong probe passes the probe check |
| WebsocketTransport.ProbeTexts | engineio/src/async_transports/mod.rs:44 | the ping probe encodes to "2probe", the Upgrade packet to "5", and the one accepted reply, the pong probe, to "3probe" |
| WebsocketTransport.Transport.constructor | engineio/src/async_transports/mod.rs:26-34 | a transport over a given inbound script, with nothing sent yet |
| WebsocketTransport.Transport.Send | engineio/src/async_transports/mod.rs:75 | a send appends the frame to the outbound log exactly when the sink is open, and fails with the socket error otherwise |
| WebsocketTransport.Transport.Next | engineio/src/async_transports/mod.rs:48-51 | a receive takes the first inbound item, or yields nothing at the end of the stream |
| WebsocketTransport.Transport.Upgrade | engineio/src/async_transports/mod.rs:38-64 | the ping probe is sent first, as text, before anything is read; exactly one reply is consumed; the Upgrade packet is sent after it exactly when the reply is the pong probe; nothing else is sent |
| WebsocketTransport.Transport.Emit | engineio/src/async_transports/mod.rs:66-78 | invalid UTF-8 requested as text fails with nothing sent; otherwise the chosen frame is sent exactly when the sink accepts it |
| WebsocketTransport.Transport.Poll | engineio/src/async_transports/mod.rs:80-94 | an exhausted stream gives `IncompletePacket`; a read error gives the socket error; a frame gives its Engine.IO bytes; one item is consumed |
| WebsocketTransport.UpgradeOnFreshTransport | engineio/src/async_transports/mod.rs:38-64 | a successful upgrade leaves exactly ["2probe", "5"] on the wire and consumes only the pong |
| Query.SplitOnJoined | src/transport.rs:61-64 | cutting at a separator undoes joining with it when no part contains the separator |
| Query.KeyValueOf | src/transport.rs:61-64 | a `key=value` parameter reads back as its key and value when the key holds no '=' |
| Query.OpenQueryParams | src/transport.rs:61-64 | the opening request path starts with `/engine.io/?` and carries, in order, EIO=4, transport=polling and the token |
| Query.SessionQueryParams | src/transport.rs:92-96 | a session request path starts with `/engine.io/?` and carries, in order, EIO=4, transport=polling, the token and the session id |
| Query.SessionExtendsOpen | src/transport.rs:126-130 | a session path is the opening path followed by `&sid=` and the session id |
| PollingTransport.DropFirst | src/transport.rs:71 | `&response[1..]` succeeds exactly on a non-empty response whose first character is one UTF-8 byte, and yields everything after that character |
| PollingTransport.FirstControl | src/transport.rs:145-172 | the dispatch loop's stopping point is the first packet that is neither Message nor Noop, or the end |
| PollingTransport.DispatchHalt | src/transport.rs:151-170 | the loop stops, failing, exactly at the first control packet and reports that packet's kind; it never stops silently on one |
| PollingTransport.DispatchPackets | src/transport.rs:138-143 | `on_packet` receives every reached packet, in order, once each, including the control packet the loop stops at |
| PollingTransport.DispatchData | src/transport.rs:145-150 | `on_data` receives the data of exactly the reached Message packets, in order; Noop and control packets deliver nothing |
| PollingTransport.TransportClient.constructor | src/transport.rs:38-50 | a fresh client: polling, no callbacks, not connected, no address, no handshake data |
| PollingTransport.TransportClient.Open | src/transport.rs:52-84 | already connected: Ok with nothing changed; bad URL: `InvalidUrl(address)` with nothing stored; otherwise the address is stored before the GET; a body that parses as `Option<HandshakeData>` replaces the handshake data, by None for JSON `null`, and `on_open` fires once; an unparsable one gives `HandshakeError(response)` with the handshake data untouched; an unsliceable response panics |
| PollingTransport.TransportClient.SessionUrl | src/transport.rs:92-100 | the session URL is the stored address followed by the session path of the handshake's sid; a missing handshake, a missing address or a rejected URL is the corresponding panic |
| PollingTransport.TransportClient.Emit | src/transport.rs:86-117 | refused with `ActionBeforeOpen` when the connected flag is set; panics without sending when the session URL cannot be built; otherwise one POST carrying the packet, and `HttpError(status)` for any status but 200 |
| PollingTransport.TransportClient.Poll | src/transport.rs:119-178 | the same guard and URL as `emit`; one GET; the decoded packets are dispatched in order, and a control packet ends the poll in a panic naming its kind |
| PollingTransport.TransportClient.Fire | src/transport.rs:140-150 | one packet fires `on_packet` with the packet and then, for a Message, `on_data` with its data |
| PollingTransport.TransportClient.DeliverOne | src/transport.rs:138-172 | one turn of the loop fires one packet's callbacks and stops exactly on a control packet |
| PollingTransport.TransportClient.Deliver | src/transport.rs:138-173 | the `for` loop fires exactly the dispatch log of the packets and stops at the first control packet |
| PollingTransport.EmitOnFreshClient | src/transport.rs:95 | emitting on a fresh client panics on the missing handshake before any request |
| PollingTransport.OpenThenEmit | src/transport.rs:198-212 | open then emit both succeed and send exactly the opening GET and a POST to the session path carrying the packet |
| PollingTransport.OpenNullThenEmit | src/transport.rs:71-77 | an opening response whose JSON is `null` succeeds but stores no handshake, so the next emit panics on the session id's unwrap (line 95) after only the opening GET |
| Engine.Apply | src/engineio/socket.rs:40-148 | binding and registering once connected are refused unchanged; emitting before connecting is refused and sends nothing; only a successful bind connects; a connected emit forwards the packet with flag off, a binary attachment as a Message with flag on; a registration fills only its own slot |
| Engine.ConnectedIsFinal | src/engineio/socket.rs:41-48 | once connected, no sequence of calls disconnects, rebinds or changes a callback |
| Engine.NothingSentBeforeBind | src/engineio/socket.rs:74-84 | until a bind succeeds, no sequence of calls hands anything to the transport |
| Engine.SentOnlyGrows | src/engineio/socket.rs:77-87 | emissions already handed on are never taken back or reordered |
| Engine.RegisterSetsOwnSlot | src/engineio/socket.rs:91-148 | a registration before connecting sets its own slot and leaves every other slot as it was |
| Engine.EngineSocket.constructor | src/engineio/socket.rs:24-36 | a new socket is not connected, has no address, no callbacks and has sent nothing |
| Engine.EngineSocket.Bind | src/engineio/socket.rs:40-70 | behaves as `Apply` on a bind |
| Engine.EngineSocket.Emit | src/engineio/socket.rs:73-78 | behaves as `Apply` on an emit |
| Engine.EngineSocket.EmitBinaryAttachment | src/engineio/socket.rs:81-88 | behaves as `Apply` on a binary attachment |
| Engine.EngineSocket.Register | src/engineio/socket.rs:95-99 | behaves as `Apply` on a registration |
| Engine.EngineSocket.OnOpen | src/engineio/socket.rs:91-100 | behaves as `Apply` on registering `on_open` |
| Engine.EngineSocket.OnClose | src/engineio/socket.rs:103-112 | behaves as `Apply` on registering `on_close` |
| Engine.EngineSocket.OnPacket | src/engineio/socket.rs:115-124 | behaves as `Apply` on registering `on_packet` |
| Engine.EngineSocket.OnData | src/engineio/socket.rs:127-136 | behaves as `Apply` on registering `on_data` |
| Engine.EngineSocket.OnError | src/engineio/socket.rs:139-148 | behaves as `Apply` on registering `on_error` |
| Engine.EngineSocket.IsConnected | src/engineio/socket.rs:151-157 | returns exactly the connected flag |
| Engine.IllegalActions | src/engineio/socket.rs:226-243 | a new socket refuses both emits with `ActionBeforeOpen`; after a successful bind all five registrations are refused with `IllegalActionAfterOpen` |
| Acks.Elapsed | socketio/src/asynchronous/client/client.rs:233 | elapsed time is the clock reading minus the start, and never negative |
| Acks.MatchingIndicesExact | socketio/src/asynchronous/client/client.rs:229-232 | the collected positions are, in ascending order, exactly the positions whose ack carries the id |
| Acks.RetainedFilters | socketio/src/asynchronous/client/client.rs:228-256 | the intended table after an ack keeps every entry with another id and no entry with this id, and its size is the table's minus the number of matches |
| Acks.RemoveAt | socketio/src/asynchronous/client/client.rs:254 | `Vec::remove(i)` keeps the entries before `i` and shifts those after it down by one |
| Acks.Reversed | socketio/src/asynchronous/client/client.rs:253 | the removal order reversed: same length, positions mirrored |
| Acks.DescendingRemovalRetains | socketio/src/asynchronous/client/client.rs:253-255 | removing the matched positions from the highest down never panics and leaves exactly the intended table |
| Acks.AscendingRemovalOfSingleMatch | socketio/src/asynchronous/client/client.rs:253-255 | with one matching ack, the ascending removal as written removes it and the others keep their order |
| Acks.AscendingRemovalDropsWrongAck | socketio/src/asynchronous/client/client.rs:253-255 | for ids [5, 5, 7] and an ack for 5, the removal as written keeps the second 5 and drops the 7 |
| Acks.AscendingRemovalPanics | socketio/src/asynchronous/client/client.rs:253-255 | for ids [5, 5] and an ack for 5, the second removal as written is out of bounds |
| Acks.NoLiveMatchFiresNothing | socketio/src/asynchronous/client/client.rs:233-250 | when every matching ack has timed out, or none matches, no callback runs |
| Acks.FiresOnlyMatches | socketio/src/asynchronous/client/client.rs:229-247 | every ack callback fired belongs to an entry with the acknowledged id that has not timed out, and carries that id |
| Acks.LiveMatchFires | socketio/src/asynchronous/client/client.rs:229-247 | conversely, every entry with the acknowledged id that has not timed out is called with the text data when present and with the first attachment when present |
| SocketClient.CallFor | socketio/src/asynchronous/client/client.rs:214-222 | `callback` invokes the handler registered for exactly that event, once, and nothing for an unregistered event |
| SocketClient.StripQuotes | socketio/src/asynchronous/client/client.rs:264 | the stripped name holds no quote and is no longer than the data |
| SocketClient.StripQuotesKeepsOthers | socketio/src/asynchronous/client/client.rs:264 | stripping removes only quotes: every other character keeps its count |
| SocketClient.StripQuotesAppend | socketio/src/asynchronous/client/client.rs:264 | stripping a concatenation strips each part |
| SocketClient.StripQuotesUnquoted | socketio/src/asynchronous/client/client.rs:264 | a name without quotes is left as it is, so stripping is idempotent |
| SocketClient.StripQuotedName | socketio/src/asynchronous/client/client.rs:263-264 | the data `"name"` names the event `name` |
| SocketClient.BinaryEventCall | socketio/src/asynchronous/client/client.rs:262-276 | a call happens exactly when attachments are non-empty, with the first attachment; the event is the data without quotes, or Message without data |
| SocketClient.EventRequest | socketio/src/asynchronous/client/client.rs:280-311 | no data or a non-array dispatches nothing; an empty array panics; otherwise the event is element 0 when it is a string and there are two or more, "message" for a non-string, Message for one element; the payload is element 1, else element 0 |
| SocketClient.ConnectErrorText | socketio/src/asynchronous/client/client.rs:337-346 | the Error handler's text is the ConnectError prefix followed by the data, or by the quoted "No error message provided" |
| SocketClient.Route | socketio/src/asynchronous/client/client.rs:317-356 | a foreign namespace is skipped; exactly Ack and BinaryAck go to the ack table; Connect calls Connect with "", Disconnect calls Close with "", ConnectError calls Error with its text; a BinaryEvent invokes the call of `BinaryEventCall` or does nothing; an Event invokes the call of `EventRequest`, does nothing, or is routed to `Panic` exactly on the empty array. `Panic` is the only panicking route: the panic of the as-written ack removal (client.rs:253-255) happens in the ack table, which this route hands Ack packets to |
| SocketClient.ForeignPacketIgnored | socketio/src/asynchronous/client/client.rs:318 | a packet of another namespace changes nothing and calls nothing |
| SocketClient.OnlyAcksTouchTable | socketio/src/asynchronous/client/client.rs:319-353 | no packet other than an ack changes the ack table, and each makes at most one call |
| SocketClient.AckPacketClearsId | socketio/src/asynchronous/client/client.rs:320-325 | an ack packet with an id removes every entry with that id, keeps every other entry, and only calls callbacks of removed entries |
| SocketClient.FirstLocal | socketio/src/asynchronous/client/client.rs:366-386 | the first stream item `poll_next` does not skip: every earlier item is a packet of another namespace |
| SocketClient.Client.constructor | socketio/src/asynchronous/client/client.rs:48-59 | a client on a namespace with its handlers, an empty ack table and nothing sent or called |
| SocketClient.Client.Connect | socketio/src/asynchronous/client/client.rs:64-74 | when the inner socket connects, exactly one Connect packet for this namespace is sent; otherwise nothing is sent and the error is returned |
| SocketClient.Client.Disconnect | socketio/src/asynchronous/client/client.rs:135-143 | exactly one Disconnect packet for this namespace is sent before the inner socket disconnects; a send failure is returned first |
| SocketClient.Client.EmitWithAck | socketio/src/asynchronous/client/client.rs:181-212 | one ack with the id, timeout, start time and callback is appended to the end of the table before the built packet is sent; a packet that cannot be built changes nothing |
| SocketClient.Client.Callback | socketio/src/asynchronous/client/client.rs:214-222 | always Ok, and the invocation log grows by exactly the call `CallFor` gives |
| SocketClient.Client.CollectMatches | socketio/src/asynchronous/client/client.rs:229-252 | the `enumerate` loop collects exactly the matching positions and fires exactly the live matches' callbacks, data first and then the first attachment |
| SocketClient.Client.RemoveIndices | socketio/src/asynchronous/client/client.rs:253-255 | the removal loop ends with the table `RemoveAll` gives, or reports the out-of-bounds removal |
| SocketClient.Client.HandleAckAsWritten | socketio/src/asynchronous/client/client.rs:226-258 | as written: no id changes nothing; otherwise the live matches fire and the matched positions are removed in ascending order, panicking exactly when a removal is out of bounds |
| SocketClient.Client.HandleAck | socketio/src/asynchronous/client/client.rs:226-258 | corrected: never fails; no id changes nothing; otherwise the live matches fire and the table becomes exactly the entries with another id, in order |
| SocketClient.Client.HandleBinaryEvent | socketio/src/asynchronous/client/client.rs:262-276 | always Ok, calling exactly the handler of the call `BinaryEventCall` gives |
| SocketClient.Client.HandleEvent | socketio/src/asynchronous/client/client.rs:280-311 | panics exactly on an empty array, and otherwise calls exactly the handler of the call `EventRequest` gives |
| SocketClient.Client.HandleSocketioPacket | socketio/src/asynchronous/client/client.rs:317-356 | calls, ack table and panic are exactly those of `Handle` for the packet |
| SocketClient.Client.PollNext | socketio/src/asynchronous/client/client.rs:362-388 | skips exactly the leading packets of other namespaces; an error item is passed to the Error handler and yielded; a local packet is handled and yielded; with no local item it never yields and calls nothing |
| SocketClient.ForeignStreamSpins | socketio/src/asynchronous/client/client.rs:378-384 | a stream of foreign packets yields nothing and calls nothing |
| Facade.CheckNamespace | src/lib.rs:144-151 | a namespace is accepted exactly when it starts with '/', and rejected with `IllegalNamespace` carrying the string itself |
| Facade.NamespaceExamples | src/lib.rs:361-364 | "/admin" and "/" are accepted; "admin" and "" are rejected |
| Facade.NamespaceFirstCharacter | src/lib.rs:142-148 | anything after a leading '/' is accepted, and appending text never rescues a non-empty name that lacks one |
| Facade.Socket.constructor | src/lib.rs:212-216 | a socket for the address on the given namespace, not connected, with no callbacks |
| Facade.Socket.SetNamespace | src/lib.rs:311-313 | the stored namespace becomes `Some(namespace)` and nothing else changes |
| Facade.Socket.On | src/lib.rs:218-226 | refused with `IllegalActionAfterOpen` once connected; otherwise the event's callback is set and nothing else changes |
| Facade.Socket.Connect | src/lib.rs:228-233 | returns the transport's result and is connected after a success |
| Facade.SocketBuilder.constructor | src/lib.rs:136-140 | a builder whose socket is on the default namespace "/" |
| Facade.SocketBuilder.SetNamespace | src/lib.rs:144-151 | an accepted namespace replaces the stored one and the builder is returned; a rejected one leaves it as it was and returns the rejection |
| Facade.SocketBuilder.On | src/lib.rs:169-178 | registration on a builder's socket cannot be refused, since that socket is not connected |
| Facade.SocketBuilder.Connect | src/lib.rs:201-204 | the socket, connected, only when the inner connect succeeds; otherwise its error |
| Facade.AdminBuilder | src/lib.rs:361-374 | "/admin" is accepted and stored, the three callbacks are registered, and after connecting a further registration is refused |

## Left out

- All network I/O is scripted. HTTP responses and status codes are inputs. WebSocket frames are an inbound script and an outbound log. TLS and header maps are ignored.
- Locks, atomics, `Arc`, async pending states and `Pin`/`Stream` mechanics are not modelled. Every call runs to completion on its own.
- The `read()?`/`write()?` lock-poisoning errors of `src/engineio/socket.rs` are not modelled.
- The background poll thread that `bind` spawns (src/engineio/socket.rs:51-67) is not part of this model.
- The parameters of `EngineSocket::new` are not modelled: the engine.io mode flag, the TLS configuration and the opening headers. They only configure the transport client.
- The transport client behind `src/engineio/socket.rs` is not part of this model. The results of its `open` and `emit` are inputs, and a successful `open` is taken to set the connected flag.
- `AsyncWebsocketGeneralTransport::new` takes the split socket. It is modelled as a constructor over an inbound script and a flag saying whether the sink accepts frames.
- `get_random_t` is not modelled: it hashes random bytes with SHA-1. The cache token is a parameter.
- The `thread_rng` ack id is not modelled either. It is a parameter in `[0, 999)`.
- `encode_payload` and `decode_payload` are not part of this model. A POST records the packets it carries, and the payload decoder is a given function.
- JSON handling is not modelled. The handshake parser, the JSON array parser and `to_string` of a JSON value are given functions. The handshake parser yields an `Option<HandshakeData>` on success, as the field it is assigned to demands, so JSON `null` is a successful parse.
- The handshake's `upgrades`, `pingInterval` and `pingTimeout` are stored but not interpreted, because the modelled code never reads them.
- `Url::parse` is a given predicate.
- The `dbg!` output is ignored.
- `Event::from(&str)` and the event file are not part of this model. The conversion is a given function.
- `build_packet_for_payload` is not part of this model. Its result is an input of `emit_with_ack`.
- The clock is an integer reading. `Duration` and `Instant` are integers in one unit.
- `Client::emit` and the socket's other send methods in `src/lib.rs` are outside the modelled core.
- SocketClient.Client.Callback: the `Client` handle passed to every callback is dropped. A callback is modelled by its invocation only.
- SocketClient.Route: dispatches Ack and BinaryAck to the corrected `handle_ack` (see Findings); the panic and the wrong removal for duplicate ack ids at client.rs:253-255 are not reproduced on this path, only in `SocketClient.Client.HandleAckAsWritten`.
- SocketClient.AckPacketClearsId: states the removal of the corrected `handle_ack`; as written, client.rs:253-255 keeps a duplicate entry and drops another one, or panics, when two outstanding acks share the id (see `Acks.AscendingRemovalDropsWrongAck` and `Acks.AscendingRemovalPanics`).
- SocketClient.Client.HandleSocketioPacket: dispatches to the corrected `handle_ack`; the panic and the wrong removal for duplicate ack ids at client.rs:253-255 are not reproduced.
- SocketClient.Client.PollNext: handles local ack packets with the corrected `handle_ack`; the source's panic inside `poll_next` for duplicate ack ids at client.rs:253-255 is not reproduced.
- SocketClient.Client.HandleSocketioPacket: the error branches at client.rs:321-323, 327-329 and 349-351 are not modelled. They cannot be reached, because `handle_ack`, `handle_binary_event` and `handle_event` never return an error.
- WebsocketTransport.Transport.Upgrade: the sink is one flag for the transport's whole life, so the case where the ping probe is sent and the later send of the Upgrade packet fails (mod.rs:57-61) does not arise; the clause `sinkOpen ==> r == ProbeVerdict(..)` depends on that.
- SocketClient.Client.PollNext: an inner stream that has ended makes the `loop` poll again without end. This is reported as `Spinning` rather than as non-termination.
- Facade.Socket.SetNamespace: the `Arc::get_mut(..).unwrap()` panic for a shared namespace cell is not modelled. The builder's socket is never shared, so that unwrap cannot fail there.
- Facade.Socket.On: the transport client's `on` is not part of this model. The contract is the rule the method documents at src/lib.rs:218-220: refused after `connect`.

## Findings

| source | as written | input that shows it | evidently intended | confidence | as-written member | corrected member |
|---|---|---|---|---|---|---|
| socketio/src/asynchronous/client/client.rs:253-255 | the matched positions are removed with `Vec::remove` in ascending order, so every removal after the first hits a position shifted down by the earlier ones | outstanding ack ids [5, 5, 7] and an ack packet with id 5: the first and the third acks are removed and the second id-5 ack stays; with ids [5, 5] the second removal is out of bounds and panics | remove exactly the acks with the acknowledged id, keeping the others in order (for example, remove from the highest position down) | not executed | SocketClient.Client.HandleAckAsWritten | SocketClient.Client.HandleAck |
