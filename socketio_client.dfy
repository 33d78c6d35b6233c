/** The Socket.IO client of socketio/src/asynchronous/client/client.rs:
    connecting and disconnecting a namespace, emitting with an ack, the
    event callbacks, the routing of incoming packets by type and the
    namespace filter of the packet stream. The inner socket is a scripted
    stream of incoming items plus a log of packets handed to `send`, and
    its results are inputs; callbacks are an invocation log; the clock is
    a parameter. */
module SocketClient {
  import opened Common
  import opened SocketTypes
  import opened Acks

  /** A callback request: which event, with which payload. */
  datatype Call = Call(event: Event, payload: Payload)

  /** The invocation `callback` makes: the handler registered for exactly
      that event, or none at all. */
  function CallFor(on: map<Event, Handler>, c: Call): (r: seq<Invocation>)
    ensures |r| <= 1
    ensures r != [] <==> c.event in on
    ensures r != [] ==> r[0] == EventCall(c.event, on[c.event], c.payload)
  {
    if c.event in on then [EventCall(c.event, on[c.event], c.payload)] else []
  }

  /** `string_data.replace('"', "")`. */
  function StripQuotes(s: string): (r: string)
    ensures '"' !in r
    ensures |r| <= |s|
  {
    if s == [] then []
    else (if s[0] == '"' then [] else [s[0]]) + StripQuotes(s[1..])
  }

  /** Stripping works piece by piece. */
  lemma {:induction false} StripQuotesAppend(a: string, b: string)
    ensures StripQuotes(a + b) == StripQuotes(a) + StripQuotes(b)
  {
    if a == [] {
      assert a + b == b;
    } else {
      assert (a + b)[0] == a[0] && (a + b)[1..] == a[1..] + b;
      StripQuotesAppend(a[1..], b);
    }
  }

  /** A name without quotes is left as it is, so stripping twice is the
      same as stripping once. */
  lemma {:induction false} StripQuotesUnquoted(s: string)
    requires '"' !in s
    ensures StripQuotes(s) == s
  {
    if s != [] {
      StripQuotesUnquoted(s[1..]);
      assert [s[0]] + s[1..] == s;
    }
  }

  /** Stripping removes exactly the quotes: every other character occurs
      as often in the result as in `s` (their order is kept piece by piece,
      as `StripQuotesAppend` states). */
  lemma {:induction false} StripQuotesKeepsOthers(s: string)
    ensures forall c | c != '"' :: multiset(StripQuotes(s))[c] == multiset(s)[c]
  {
    if s != [] {
      StripQuotesKeepsOthers(s[1..]);
      assert s == [s[0]] + s[1..];
    }
  }

  /** The event name a binary event carries in its data: `"test"` names
      the event `test`. */
  lemma StripQuotedName(name: string)
    requires '"' !in name
    ensures StripQuotes("\"" + name + "\"") == name
  {
    StripQuotesAppend("\"" + name, "\"");
    StripQuotesAppend("\"", name);
    StripQuotesUnquoted(name);
  }

  /** `handle_binary_event`: the event is the data with its quotes
      removed, or Message without data; the callback receives the first
      attachment, and there is no call without one. */
  function BinaryEventCall(p: SocketPacket, eventOf: string -> Event): (c: Option<Call>)
    ensures c.Some? <==> p.attachments.Some? && |p.attachments.value| > 0
    ensures c.Some? ==> c.value.payload == Binary(p.attachments.value[0])
    ensures c.Some? && p.data.None? ==> c.value.event == Message
    ensures c.Some? && p.data.Some? ==> c.value.event == eventOf(StripQuotes(p.data.value))
  {
    var event := if p.data.Some? then eventOf(StripQuotes(p.data.value)) else Message;
    if p.attachments.Some? && |p.attachments.value| > 0 then Some(Call(event, Binary(p.attachments.value[0])))
    else None
  }

  /** What `handle_event` does: no call, one call, or a panic. */
  datatype EventDispatch = NoCall | CallWith(call: Call) | EmptyArrayPanic

  /** `handle_event`: the data must be a JSON array. With more than one
      element the event is named by the first one when it is a string,
      and by "message" otherwise; with one element the event is Message.
      The payload is the second element, or the first when there is no
      second. An empty array reaches `contents.get(0).unwrap()`. */
  function EventRequest(p: SocketPacket, codec: Codec): (r: EventDispatch)
    ensures p.data.None? || codec.parseArray(p.data.value).None? ==> r == NoCall
    ensures r == EmptyArrayPanic <==> p.data.Some? && codec.parseArray(p.data.value) == Some([])
    ensures r.CallWith? ==> p.data.Some? && codec.parseArray(p.data.value).Some?
    ensures r.CallWith? ==>
      var contents := codec.parseArray(p.data.value).value;
      |contents| > 0
      && r.call.payload == Text(codec.render(contents[if |contents| > 1 then 1 else 0]))
      && (|contents| == 1 ==> r.call.event == Message)
      && (|contents| > 1 && contents[0].JString? ==> r.call.event == codec.eventOf(contents[0].value))
      && (|contents| > 1 && !contents[0].JString? ==> r.call.event == codec.eventOf("message"))
  {
    if p.data.None? then NoCall
    else
      match codec.parseArray(p.data.value)
      case None => NoCall
      case Some(contents) =>
        var event :=
          if |contents| > 1 then
            codec.eventOf(if contents[0].JString? then contents[0].value else "message")
          else Message;
        if |contents| > 1 then CallWith(Call(event, Text(codec.render(contents[1]))))
        else if |contents| == 1 then CallWith(Call(event, Text(codec.render(contents[0]))))
        else EmptyArrayPanic
  }

  const CONNECT_ERROR_PREFIX: string := "Received an ConnectError frame: "
  const NO_ERROR_MESSAGE: string := "\"No error message provided\""

  /** The text the Error handler receives for a ConnectError packet. */
  function ConnectErrorText(data: Option<string>): (t: string)
    ensures |t| >= |CONNECT_ERROR_PREFIX| && t[..|CONNECT_ERROR_PREFIX|] == CONNECT_ERROR_PREFIX
    ensures data.Some? ==> t[|CONNECT_ERROR_PREFIX|..] == data.value
    ensures data.None? ==> t[|CONNECT_ERROR_PREFIX|..] == NO_ERROR_MESSAGE
  {
    CONNECT_ERROR_PREFIX + (if data.Some? then data.value else NO_ERROR_MESSAGE)
  }

  /** Where `handle_socketio_packet` sends a packet. */
  datatype Action =
    | Skip                  // another namespace: nothing happens
    | Acknowledge           // Ack and BinaryAck go to the ack table
    | Invoke(call: Call)    // one callback request
    | NoAction              // an event that requests no callback
    | Panic                 // the empty event array

  /** The routing by packet type, for packets of the client's namespace. */
  function Route(p: SocketPacket, nsp: string, codec: Codec): (a: Action)
    ensures a == Skip <==> p.nsp != nsp
    ensures a == Acknowledge <==> p.nsp == nsp && (p.kind == PacketKind.Ack || p.kind == BinaryAck)
    ensures p.nsp == nsp && p.kind == PacketKind.Connect ==> a == Invoke(Call(Event.Connect, Text("")))
    ensures p.nsp == nsp && p.kind == Disconnect ==> a == Invoke(Call(Close, Text("")))
    ensures p.nsp == nsp && p.kind == ConnectError ==> a == Invoke(Call(Error, Text(ConnectErrorText(p.data))))
    ensures p.nsp == nsp && p.kind == BinaryEvent ==>
      a == (if BinaryEventCall(p, codec.eventOf).Some? then Invoke(BinaryEventCall(p, codec.eventOf).value) else NoAction)
    ensures p.nsp == nsp && p.kind == PacketKind.Event && EventRequest(p, codec).CallWith? ==>
      a == Invoke(EventRequest(p, codec).call)
    ensures p.nsp == nsp && p.kind == PacketKind.Event && EventRequest(p, codec) == NoCall ==> a == NoAction
    ensures a == Panic <==> p.nsp == nsp && p.kind == PacketKind.Event && EventRequest(p, codec) == EmptyArrayPanic
  {
    if p.nsp != nsp then Skip
    else
      match p.kind
      case Ack => Acknowledge
      case BinaryAck => Acknowledge
      case BinaryEvent =>
        var c := BinaryEventCall(p, codec.eventOf);
        if c.Some? then Invoke(c.value) else NoAction
      case Connect => Invoke(Call(Event.Connect, Text("")))
      case Disconnect => Invoke(Call(Close, Text("")))
      case ConnectError => Invoke(Call(Error, Text(ConnectErrorText(p.data))))
      case Event =>
        match EventRequest(p, codec)
        case NoCall => NoAction
        case CallWith(c) => Invoke(c)
        case EmptyArrayPanic => Panic
  }

  /** What handling one packet does: the invocations, the new ack table,
      and whether it panicked. */
  datatype Effect = Effect(calls: seq<Invocation>, acks: seq<Ack>, panicked: bool)

  /** The effect of `handle_socketio_packet`, with the ack table updated by
      removing exactly the acknowledged entries. */
  function Handle(p: SocketPacket, nsp: string, codec: Codec, on: map<Event, Handler>,
                  acks: seq<Ack>, now: nat): Effect
  {
    match Route(p, nsp, codec)
    case Skip => Effect([], acks, false)
    case NoAction => Effect([], acks, false)
    case Panic => Effect([], acks, true)
    case Invoke(c) => Effect(CallFor(on, c), acks, false)
    case Acknowledge =>
      if p.id.None? then Effect([], acks, false)
      else Effect(AckFires(acks, p.id.value, p.data, p.attachments, now), Retained(acks, p.id.value), false)
  }

  /** A packet of another namespace has no effect at all. */
  lemma ForeignPacketIgnored(p: SocketPacket, nsp: string, codec: Codec, on: map<Event, Handler>,
                             acks: seq<Ack>, now: nat)
    requires p.nsp != nsp
    ensures Handle(p, nsp, codec, on, acks, now) == Effect([], acks, false)
  {
  }

  /** Only Ack and BinaryAck packets touch the ack table, and every other
      packet makes at most one call. */
  lemma OnlyAcksTouchTable(p: SocketPacket, nsp: string, codec: Codec, on: map<Event, Handler>,
                           acks: seq<Ack>, now: nat)
    requires p.kind != PacketKind.Ack && p.kind != BinaryAck
    ensures Handle(p, nsp, codec, on, acks, now).acks == acks
    ensures |Handle(p, nsp, codec, on, acks, now).calls| <= 1
  {
  }

  /** An ack packet of the client's namespace with an id removes every
      entry with that id, keeps every other entry, and calls only
      callbacks of removed entries. */
  lemma AckPacketClearsId(p: SocketPacket, nsp: string, codec: Codec, on: map<Event, Handler>,
                          acks: seq<Ack>, now: nat)
    requires p.nsp == nsp && (p.kind == PacketKind.Ack || p.kind == BinaryAck) && p.id.Some?
    ensures forall a | a in Handle(p, nsp, codec, on, acks, now).acks :: a in acks && a.id != p.id.value
    ensures forall a | a in acks && a.id != p.id.value :: a in Handle(p, nsp, codec, on, acks, now).acks
    ensures forall c | c in Handle(p, nsp, codec, on, acks, now).calls :: c.AckCall? && c.ackId == p.id.value
  {
    RetainedFilters(acks, p.id.value);
    FiresOnlyMatches(acks, p.id.value, p.data, p.attachments, now);
  }

  /** The end of a call: it returns, or it panics. */
  datatype Completion = Done(outcome: Outcome<string>) | Panicked

  /** A stream item not meant for this client: a packet of another
      namespace. */
  predicate Foreign(item: Result<SocketPacket, string>, nsp: string)
  {
    item.Ok? && item.value.nsp != nsp
  }

  /** The position of the first item `poll_next` does not skip, or the
      length of the stream when it skips them all. */
  function FirstLocal(items: seq<Result<SocketPacket, string>>, nsp: string): (k: nat)
    ensures k <= |items|
    ensures forall j | 0 <= j < k :: Foreign(items[j], nsp)
    ensures k < |items| ==> !Foreign(items[k], nsp)
  {
    if items == [] || !Foreign(items[0], nsp) then 0 else 1 + FirstLocal(items[1..], nsp)
  }

  /** What `poll_next` yields: an item, or nothing ever (on an ended inner
      stream the loop polls again without end), or a panic while
      handling. */
  datatype PollResult = Ready(item: Result<SocketPacket, string>) | Spinning | Stopped

  class Client {
    /** The namespace this client multiplexes on. */
    const nsp: string
    const codec: Codec
    var on: map<Event, Handler>
    var outstandingAcks: seq<Ack>
    /** Callback invocations, in order. */
    var invoked: seq<Invocation>
    /** Packets handed to the inner socket's `send`, in order. */
    var sent: seq<SocketPacket>
    /** What the inner socket's stream will yield, in order. */
    var incoming: seq<Result<SocketPacket, string>>

    constructor (nsp: string, on: map<Event, Handler>, codec: Codec, incoming: seq<Result<SocketPacket, string>>)
      ensures this.nsp == nsp && this.on == on && this.codec == codec && this.incoming == incoming
      ensures outstandingAcks == [] && invoked == [] && sent == []
    {
      this.nsp := nsp;
      this.on := on;
      this.codec := codec;
      this.incoming := incoming;
      outstandingAcks := [];
      invoked := [];
      sent := [];
    }

    /** `connect`: connect the inner socket, then send the Connect packet
        of this namespace. */
    method Connect(connecting: Outcome<string>, sending: Outcome<string>) returns (r: Outcome<string>)
      modifies this`sent
      ensures connecting.Fail? ==> r == connecting && sent == old(sent)
      ensures connecting.Pass? ==> (r == sending
        && sent == old(sent) + [SocketPacket(PacketKind.Connect, nsp, None, None, 0, None)])
    {
      if connecting.Fail? {
        return connecting;
      }
      var openPacket := SocketPacket(PacketKind.Connect, nsp, None, None, 0, None);
      sent := sent + [openPacket];
      r := sending;
    }

    /** `disconnect`: send the Disconnect packet of this namespace, then
        disconnect the inner socket. */
    method Disconnect(sending: Outcome<string>, disconnecting: Outcome<string>) returns (r: Outcome<string>)
      modifies this`sent
      ensures sent == old(sent) + [SocketPacket(PacketKind.Disconnect, nsp, None, None, 0, None)]
      ensures r == (if sending.Fail? then sending else disconnecting)
    {
      var disconnectPacket := SocketPacket(PacketKind.Disconnect, nsp, None, None, 0, None);
      sent := sent + [disconnectPacket];
      if sending.Fail? {
        return sending;
      }
      r := disconnecting;
    }

    /** `emit_with_ack`: `id` is the random id in [0, 999), `built` the
        packet built for the payload (or why it could not be built), `now`
        the clock. The ack goes to the end of the table before the packet
        is sent. */
    method EmitWithAck(id: int, timeout: nat, callback: Handler, now: nat,
                       built: Result<SocketPacket, string>, sending: Outcome<string>) returns (r: Outcome<string>)
      requires 0 <= id < 999
      modifies this`outstandingAcks, this`sent
      ensures built.Err? ==> r == Fail(built.error) && unchanged(this)
      ensures built.Ok? ==> (r == sending
        && outstandingAcks == old(outstandingAcks) + [Ack.Ack(id, timeout, now, callback)]
        && sent == old(sent) + [built.value])
    {
      if built.Err? {
        return Fail(built.error);
      }
      var ack := Ack.Ack(id, timeout, now, callback);
      outstandingAcks := outstandingAcks + [ack];
      sent := sent + [built.value];
      r := sending;
    }

    /** `callback`: invoke the handler registered for exactly `event`. */
    method Callback(event: Event, payload: Payload) returns (r: Outcome<string>)
      modifies this`invoked
      ensures invoked == old(invoked) + CallFor(on, Call(event, payload)) && r == Pass
    {
      if event in on {
        invoked := invoked + [EventCall(event, on[event], payload)];
      }
      r := Pass;
    }

    /** The `enumerate` loop of `handle_ack`: collects the matching
        positions and fires the callbacks of the live ones. */
    method CollectMatches(id: int, data: Option<string>, attachments: Option<seq<seq<byte>>>, now: nat)
      returns (toBeRemoved: seq<nat>)
      modifies this`invoked
      ensures toBeRemoved == MatchingIndices(outstandingAcks, id)
      ensures invoked == old(invoked) + AckFires(outstandingAcks, id, data, attachments, now)
    {
      var acks := outstandingAcks;
      toBeRemoved := [];
      var index := 0;
      while index < |acks|
        invariant 0 <= index <= |acks|
        invariant toBeRemoved == MatchingIndices(acks[..index], id)
        invariant invoked == old(invoked) + AckFires(acks[..index], id, data, attachments, now)
      {
        var ack := acks[index];
        assert acks[..index + 1][..index] == acks[..index];
        if ack.id == id {
          toBeRemoved := toBeRemoved + [index];
          if Elapsed(ack, now) < ack.timeout {
            if data.Some? {
              invoked := invoked + [AckCall(ack.id, ack.callback, Text(data.value))];
            }
            if attachments.Some? && |attachments.value| > 0 {
              invoked := invoked + [AckCall(ack.id, ack.callback, Binary(attachments.value[0]))];
            }
          }
        }
        index := index + 1;
      }
      assert acks[..|acks|] == acks;
    }

    /** `for index in order { outstanding_acks.remove(index) }`; false when
        a removal panics. */
    method RemoveIndices(order: seq<nat>) returns (ok: bool)
      modifies this`outstandingAcks
      ensures ok <==> RemoveAll(old(outstandingAcks), order).Some?
      ensures ok ==> outstandingAcks == RemoveAll(old(outstandingAcks), order).value
    {
      var j := 0;
      while j < |order|
        invariant 0 <= j <= |order|
        invariant RemoveAll(old(outstandingAcks), order) == RemoveAll(outstandingAcks, order[j..])
      {
        assert order[j..][0] == order[j] && order[j..][1..] == order[j + 1..];
        if order[j] >= |outstandingAcks| {
          return false;
        }
        outstandingAcks := RemoveAt(outstandingAcks, order[j]);
        j := j + 1;
      }
      ok := true;
    }

    /** `handle_ack` as written: the matched positions are removed in
        ascending order, which panics or removes the wrong entries when
        several outstanding acks share the id. */
    method HandleAckAsWritten(packet: SocketPacket, now: nat) returns (r: Completion)
      modifies this`outstandingAcks, this`invoked
      ensures packet.id.None? ==> r == Done(Pass) && unchanged(this)
      ensures packet.id.Some? ==>
        var id := packet.id.value;
        var removed := RemoveAll(old(outstandingAcks), MatchingIndices(old(outstandingAcks), id));
        invoked == old(invoked) + AckFires(old(outstandingAcks), id, packet.data, packet.attachments, now)
        && (r == Panicked <==> removed.None?)
        && (removed.Some? ==> r == Done(Pass) && outstandingAcks == removed.value)
    {
      if packet.id.None? {
        return Done(Pass);
      }
      var toBeRemoved := CollectMatches(packet.id.value, packet.data, packet.attachments, now);
      var ok := RemoveIndices(toBeRemoved);
      r := if ok then Done(Pass) else Panicked;
    }

    /** `handle_ack` with the matched positions removed from the highest
        down: exactly the entries with the id leave the table, the others
        keep their order, and no removal can panic. */
    method HandleAck(packet: SocketPacket, now: nat) returns (r: Completion)
      modifies this`outstandingAcks, this`invoked
      ensures r == Done(Pass)
      ensures packet.id.None? ==> unchanged(this)
      ensures packet.id.Some? ==>
        invoked == old(invoked) + AckFires(old(outstandingAcks), packet.id.value, packet.data, packet.attachments, now)
        && outstandingAcks == Retained(old(outstandingAcks), packet.id.value)
    {
      if packet.id.None? {
        return Done(Pass);
      }
      var id := packet.id.value;
      DescendingRemovalRetains(outstandingAcks, id);
      var toBeRemoved := CollectMatches(id, packet.data, packet.attachments, now);
      var ok := RemoveIndices(Reversed(toBeRemoved));
      r := Done(Pass);
    }

    /** `handle_binary_event`. */
    method HandleBinaryEvent(packet: SocketPacket) returns (r: Outcome<string>)
      modifies this`invoked
      ensures r == Pass
      ensures var c := BinaryEventCall(packet, codec.eventOf);
        invoked == old(invoked) + (if c.Some? then CallFor(on, c.value) else [])
    {
      var event := if packet.data.Some? then codec.eventOf(StripQuotes(packet.data.value)) else Message;
      if packet.attachments.Some? && |packet.attachments.value| > 0 {
        r := Callback(event, Binary(packet.attachments.value[0]));
      } else {
        r := Pass;
      }
    }

    /** `handle_event`. */
    method HandleEvent(packet: SocketPacket) returns (r: Completion)
      modifies this`invoked
      ensures var d := EventRequest(packet, codec);
        (r == Panicked <==> d == EmptyArrayPanic)
        && (r != Panicked ==> r == Done(Pass))
        && invoked == old(invoked) + (if d.CallWith? then CallFor(on, d.call) else [])
    {
      if packet.data.None? {
        return Done(Pass);
      }
      var parsed := codec.parseArray(packet.data.value);
      if parsed.None? {
        return Done(Pass);
      }
      var contents := parsed.value;
      var event: Event;
      if |contents| > 1 {
        event := codec.eventOf(if contents[0].JString? then contents[0].value else "message");
      } else {
        event := Message;
      }
      if |contents| == 0 {
        return Panicked;
      }
      var payload := if |contents| > 1 then contents[1] else contents[0];
      var ignored := Callback(event, Text(codec.render(payload)));
      r := Done(Pass);
    }

    /** `handle_socketio_packet`, with the corrected `handle_ack`. */
    method HandleSocketioPacket(packet: SocketPacket, now: nat) returns (r: Completion)
      modifies this`outstandingAcks, this`invoked
      ensures var e := Handle(packet, nsp, codec, on, old(outstandingAcks), now);
        invoked == old(invoked) + e.calls && outstandingAcks == e.acks
        && r == (if e.panicked then Panicked else Done(Pass))
    {
      if packet.nsp != nsp {
        return Done(Pass);
      }
      match packet.kind {
        case Ack =>
          r := HandleAck(packet, now);
        case BinaryAck =>
          r := HandleAck(packet, now);
        case BinaryEvent =>
          var outcome := HandleBinaryEvent(packet);
          r := Done(outcome);
        case Connect =>
          var outcome := Callback(Event.Connect, Text(""));
          r := Done(outcome);
        case Disconnect =>
          var outcome := Callback(Close, Text(""));
          r := Done(outcome);
        case ConnectError =>
          var outcome := Callback(Error, Text(ConnectErrorText(packet.data)));
          r := Done(outcome);
        case Event =>
          r := HandleEvent(packet);
      }
    }

    /** `poll_next`: skip packets of other namespaces; pass an error to the
        Error handler and yield it; handle and yield a packet of this
        namespace. When the inner stream has ended the loop never yields. */
    method PollNext(now: nat) returns (r: PollResult)
      modifies this`incoming, this`outstandingAcks, this`invoked
      ensures var k := FirstLocal(old(incoming), nsp);
        k == |old(incoming)| ==>
          r == Spinning && incoming == [] && invoked == old(invoked) && outstandingAcks == old(outstandingAcks)
      ensures var k := FirstLocal(old(incoming), nsp);
        k < |old(incoming)| ==> incoming == old(incoming)[k + 1..]
      ensures var k := FirstLocal(old(incoming), nsp);
        k < |old(incoming)| && old(incoming)[k].Err? ==>
          var e := old(incoming)[k].error;
          r == Ready(Err(e)) && outstandingAcks == old(outstandingAcks)
          && invoked == old(invoked) + CallFor(on, Call(Error, Text(e)))
      ensures var k := FirstLocal(old(incoming), nsp);
        k < |old(incoming)| && old(incoming)[k].Ok? ==>
          var p := old(incoming)[k].value;
          var e := Handle(p, nsp, codec, on, old(outstandingAcks), now);
          invoked == old(invoked) + e.calls && outstandingAcks == e.acks
          && r == (if e.panicked then Stopped else Ready(Ok(p)))
    {
      ghost var items := incoming;
      ghost var k := FirstLocal(items, nsp);
      var skipped := 0;
      while incoming != []
        invariant 0 <= skipped <= k && incoming == items[skipped..]
        invariant invoked == old(invoked) && outstandingAcks == old(outstandingAcks)
        decreases |incoming|
      {
        var item := incoming[0];
        incoming := incoming[1..];
        assert item == items[skipped] && incoming == items[skipped + 1..];
        if item.Err? {
          var ignored := Callback(Error, Text(item.error));
          return Ready(item);
        }
        var packet := item.value;
        if packet.nsp == nsp {
          var handled := HandleSocketioPacket(packet, now);
          if handled.Panicked? {
            return Stopped;
          }
          return Ready(item);
        }
        skipped := skipped + 1;
      }
      r := Spinning;
    }
  }

  /** A stream holding only packets of other namespaces yields nothing and
      calls nothing: every packet is skipped. */
  method ForeignStreamSpins(nsp: string, codec: Codec, on: map<Event, Handler>,
                            items: seq<Result<SocketPacket, string>>, now: nat)
    returns (r: PollResult, calls: seq<Invocation>)
    requires forall j | 0 <= j < |items| :: Foreign(items[j], nsp)
    ensures r == Spinning && calls == []
  {
    var client := new Client(nsp, on, codec, items);
    r := client.PollNext(now);
    calls := client.invoked;
  }
}
