/** The asynchronous WebSocket transport of the Engine.IO client
    (engineio/src/async_transports/mod.rs): the probe/upgrade exchange of
    Engine.IO protocol revision 4, the choice between text and binary frames
    (section 5.6 of RFC 6455: a text frame carries UTF-8), and the prefixing
    of inbound binary frames. The socket is a scripted sequence of inbound
    items and a log of outbound frames. */
module WebsocketTransport {
  import opened Common
  import opened Utf8
  import opened EnginePacket

  /** A WebSocket message; `payload` is what `into_data` yields. `Text`
      stands for every message that is not binary: tungstenite's Ping,
      Pong and Close messages take the same branch as a text message, in
      `poll` and in the reply comparison of `upgrade`. */
  datatype Frame = Text(payload: seq<byte>) | Binary(payload: seq<byte>)

  /** One item of the receiving stream: a frame, or a read error. The end
      of the script is the end of the stream (`next()` yields `None`). */
  datatype Incoming = Delivered(frame: Frame) | ReadFailed

  datatype Error =
    | IllegalWebsocketUpgrade  // no reply to the probe
    | InvalidPacket            // a reply other than the probe pong
    | IncompletePacket         // the stream ended while polling
    | InvalidUtf8              // text requested for bytes that are not UTF-8
    | WebsocketError           // the socket failed to send or to read

  /** The probe ping: `Ping` with payload "probe", sent as text. */
  function PingProbe(): Packet { Packet(Ping, PROBE) }

  /** The only acceptable reply to the probe: `Pong` with payload "probe". */
  function PongProbe(): Packet { Packet(Pong, PROBE) }

  /** The packet that commits the upgrade: `Upgrade` with an empty payload. */
  function UpgradePacket(): Packet { Packet(Upgrade, []) }

  /** The frame `emit` sends for `data`: binary when it carries a binary
      attachment, otherwise text, which requires valid UTF-8. The bytes are
      never altered. */
  function FrameFor(data: seq<byte>, isBinaryAtt: bool): (r: Result<Frame, Error>)
    ensures isBinaryAtt ==> r == Ok(Binary(data))
    ensures !isBinaryAtt ==> (r.Ok? <==> ValidUtf8(data))
    ensures r.Ok? ==> r.value.payload == data && (r.value.Binary? <==> isBinaryAtt)
    ensures r.Err? ==> r.error == InvalidUtf8
  {
    if isBinaryAtt then Ok(Binary(data))
    else if ValidUtf8(data) then Ok(Text(data))
    else Err(InvalidUtf8)
  }

  /** What `poll` hands to the packet decoder for a received frame. */
  function InboundBytes(f: Frame): seq<byte>
  {
    match f
    case Binary(d) => [MESSAGE_DISCRIMINANT] + d
    case Text(d) => d
  }

  /** A binary frame becomes the Message discriminant followed by the frame
      unchanged; a text frame is passed on as it is. */
  lemma InboundBytesShape(f: Frame)
    ensures f.Binary? ==> (|InboundBytes(f)| == |f.payload| + 1
      && InboundBytes(f)[0] == MESSAGE_DISCRIMINANT && InboundBytes(f)[1..] == f.payload)
    ensures f.Text? ==> InboundBytes(f) == f.payload
  {
  }

  /** The verdict on the first item received after the probe: the upgrade
      goes ahead exactly when a frame arrived whose data decodes as the
      probe pong (text and binary frames alike, since only the bytes are
      compared). */
  function ProbeVerdict(reply: Option<Incoming>): (r: Outcome<Error>)
    ensures r.Pass? <==> (reply.Some? && reply.value.Delivered?
      && Decode(reply.value.frame.payload) == Some(PongProbe()))
    ensures reply.None? ==> r == Fail(IllegalWebsocketUpgrade)
    ensures reply == Some(ReadFailed) ==> r == Fail(WebsocketError)
    ensures reply.Some? && reply.value.Delivered? && r.Fail? ==> r.error == InvalidPacket
  {
    match reply
    case None => Fail(IllegalWebsocketUpgrade)
    case Some(ReadFailed) => Fail(WebsocketError)
    case Some(Delivered(msg)) =>
      MatchesEncoding(msg.payload, PongProbe());
      if msg.payload != Encode(PongProbe()) then Fail(InvalidPacket) else Pass
  }

  /** The ping probe and the Upgrade packet are ASCII, so both go out as
      text frames. */
  lemma ProbeFrames()
    ensures FrameFor(Encode(PingProbe()), false) == Ok(Text(Encode(PingProbe())))
    ensures FrameFor(Encode(UpgradePacket()), false) == Ok(Text(Encode(UpgradePacket())))
  {
    AsciiPacketIsUtf8(PingProbe());
    AsciiPacketIsUtf8(UpgradePacket());
  }

  /** The general WebSocket transport: a sender and a receiver over one
      connection. */
  class Transport {
    /** Items the peer will deliver, in order. */
    var inbound: seq<Incoming>
    /** Frames sent so far, in order. */
    var outbound: seq<Frame>
    /** Whether the sending half accepts frames. */
    var sinkOpen: bool

    constructor (script: seq<Incoming>, sinkOpen: bool)
      ensures inbound == script && outbound == [] && this.sinkOpen == sinkOpen
    {
      inbound := script;
      outbound := [];
      this.sinkOpen := sinkOpen;
    }

    /** `sender.send(frame).await?` */
    method Send(f: Frame) returns (r: Outcome<Error>)
      modifies this`outbound
      ensures r.Pass? <==> sinkOpen
      ensures r.Fail? ==> r.error == WebsocketError
      ensures outbound == old(outbound) + (if r.Pass? then [f] else [])
    {
      if sinkOpen {
        outbound := outbound + [f];
        r := Pass;
      } else {
        r := Fail(WebsocketError);
      }
    }

    /** `receiver.next().await`: the next item, or None at the end. */
    method Next() returns (item: Option<Incoming>)
      modifies this`inbound
      ensures old(inbound) == [] ==> item == None && inbound == []
      ensures old(inbound) != [] ==> item == Some(old(inbound)[0]) && inbound == old(inbound)[1..]
    {
      if inbound == [] {
        item := None;
      } else {
        item := Some(inbound[0]);
        inbound := inbound[1..];
      }
    }

    /** The upgrade probe: send the ping probe as text, read one reply,
        and only when it is the pong probe send the empty Upgrade packet. */
    method Upgrade() returns (r: Outcome<Error>)
      modifies this`inbound, this`outbound
      ensures !sinkOpen ==> r == Fail(WebsocketError) && unchanged(this)
      ensures sinkOpen ==> r == ProbeVerdict(if old(inbound) == [] then None else Some(old(inbound)[0]))
      ensures sinkOpen ==> inbound == (if old(inbound) == [] then [] else old(inbound)[1..])
      ensures sinkOpen ==> (outbound == old(outbound) + [Text(Encode(PingProbe()))]
        + (if r.Pass? then [Text(Encode(UpgradePacket()))] else []))
    {
      ProbeFrames();
      var ping := FrameFor(Encode(PingProbe()), false);
      var sent := Send(ping.value);
      if sent.Fail? {
        assert outbound == old(outbound);
        return sent;
      }
      var reply := Next();
      var verdict := ProbeVerdict(reply);
      if verdict.Fail? {
        return verdict;
      }
      var upgrade := FrameFor(Encode(UpgradePacket()), false);
      r := Send(upgrade.value);
    }

    /** Sends `data` as one frame chosen by `FrameFor`; nothing is sent when
        the bytes cannot form a text frame. */
    method Emit(data: seq<byte>, isBinaryAtt: bool) returns (r: Outcome<Error>)
      modifies this`outbound
      ensures FrameFor(data, isBinaryAtt).Err? ==> r == Fail(InvalidUtf8) && outbound == old(outbound)
      ensures FrameFor(data, isBinaryAtt).Ok? ==> (r.Pass? <==> sinkOpen)
      ensures outbound == old(outbound) + (if r.Pass? then [FrameFor(data, isBinaryAtt).value] else [])
    {
      var message := FrameFor(data, isBinaryAtt);
      if message.Err? {
        return Fail(message.error);
      }
      r := Send(message.value);
    }

    /** Receives one frame and turns it into Engine.IO bytes: a binary frame
        gets the Message discriminant in front, a text frame is unchanged. */
    method Poll() returns (r: Result<seq<byte>, Error>)
      modifies this`inbound
      ensures old(inbound) == [] ==> r == Err(IncompletePacket) && inbound == []
      ensures old(inbound) != [] ==> inbound == old(inbound)[1..]
      ensures old(inbound) != [] && old(inbound)[0] == ReadFailed ==> r == Err(WebsocketError)
      ensures old(inbound) != [] && old(inbound)[0].Delivered? ==>
        r == Ok(InboundBytes(old(inbound)[0].frame))
    {
      var next := Next();
      if next.None? {
        return Err(IncompletePacket);
      }
      match next.value
      case ReadFailed =>
        r := Err(WebsocketError);
      case Delivered(message) =>
        if message.Binary? {
          var msg: seq<byte> := [];
          msg := msg + [MESSAGE_DISCRIMINANT];
          msg := msg + message.payload;
          assert msg == [MESSAGE_DISCRIMINANT] + message.payload;
          r := Ok(msg);
        } else {
          r := Ok(message.payload);
        }
    }
  }

  /** A successful upgrade on a fresh transport leaves exactly the ping
      probe and the Upgrade packet on the wire, in that order, and consumes
      exactly the one reply. */
  method UpgradeOnFreshTransport(rest: seq<Incoming>) returns (sent: seq<Frame>, left: seq<Incoming>)
    ensures sent == [Text(Ascii("2probe")), Text(Ascii("5"))]
    ensures left == rest
  {
    var pong := Delivered(Text(Encode(PongProbe())));
    ProbeAnswered(pong);
    ProbeTexts();
    var t := new Transport([pong] + rest, true);
    var r := t.Upgrade();
    sent, left := t.outbound, t.inbound;
  }

  lemma ProbeAnswered(pong: Incoming)
    requires pong == Delivered(Text(Encode(PongProbe())))
    ensures ProbeVerdict(Some(pong)) == Pass
  {
    DecodeEncode(PongProbe());
  }

  lemma ProbeTexts()
    ensures Encode(PingProbe()) == Ascii("2probe")
    ensures Encode(UpgradePacket()) == Ascii("5")
    ensures Encode(PongProbe()) == Ascii("3probe")
  {
  }
}
