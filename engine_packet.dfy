/** The Engine.IO packet as far as the modelled files use it: the seven
    packet kinds of Engine.IO protocol revision 4 and the text encoding of a
    single packet (the kind's digit followed by the payload), which is what
    `Bytes::from(Packet)` yields for the probe and upgrade packets. The
    codec file itself (packet.rs) is not part of this model. */
module EnginePacket {
  import opened Common
  import opened Utf8

  datatype PacketId = Open | Close | Ping | Pong | Message | Upgrade | Noop

  datatype Packet = Packet(id: PacketId, data: seq<byte>)

  /** Position of the kind in the enumeration, 0 (Open) to 6 (Noop). */
  function Ordinal(id: PacketId): (n: nat)
    ensures n < 7
    ensures id == Message <==> n == 4
  {
    match id
    case Open => 0
    case Close => 1
    case Ping => 2
    case Pong => 3
    case Message => 4
    case Upgrade => 5
    case Noop => 6
  }

  /** The ASCII digit that names the kind on the wire ('0' to '6'). */
  function Digit(id: PacketId): (b: byte)
    ensures 0x30 <= b <= 0x36
  {
    (0x30 + Ordinal(id)) as byte
  }

  /** `PacketId::Message as u8`: the raw enumeration value of Message,
      which the WebSocket transport puts in front of a binary frame. It is
      the number 4, not the digit '4'. */
  const MESSAGE_DISCRIMINANT: byte := Ordinal(Message) as byte

  /** The byte in front of a binary frame is 4, which is not the digit
      '4' that names a Message packet in the text encoding. */
  lemma MessageDiscriminant()
    ensures MESSAGE_DISCRIMINANT == 4
    ensures MESSAGE_DISCRIMINANT != Digit(Message)
  {
  }

  /** `Bytes::from(packet)` for a text packet. */
  function Encode(p: Packet): (r: seq<byte>)
    ensures |r| == |p.data| + 1 && r[0] == Digit(p.id) && r[1..] == p.data
  {
    [Digit(p.id)] + p.data
  }

  /** The inverse of `Encode`: the kind digit first, the rest is payload. */
  function Decode(b: seq<byte>): (r: Option<Packet>)
    ensures r.Some? <==> |b| > 0 && 0x30 <= b[0] <= 0x36
  {
    if |b| == 0 then None
    else if b[0] == 0x30 then Some(Packet(Open, b[1..]))
    else if b[0] == 0x31 then Some(Packet(Close, b[1..]))
    else if b[0] == 0x32 then Some(Packet(Ping, b[1..]))
    else if b[0] == 0x33 then Some(Packet(Pong, b[1..]))
    else if b[0] == 0x34 then Some(Packet(Message, b[1..]))
    else if b[0] == 0x35 then Some(Packet(Upgrade, b[1..]))
    else if b[0] == 0x36 then Some(Packet(Noop, b[1..]))
    else None
  }

  /** Decoding an encoded packet gives the packet back. */
  lemma DecodeEncode(p: Packet)
    ensures Decode(Encode(p)) == Some(p)
  {
    assert Encode(p)[1..] == p.data;
  }

  /** Whatever decodes to a packet is that packet's encoding. */
  lemma EncodeDecode(b: seq<byte>, p: Packet)
    requires Decode(b) == Some(p)
    ensures Encode(p) == b
  {
  }

  /** Byte equality with an encoded packet is the same test as decoding
      to that packet. */
  lemma MatchesEncoding(b: seq<byte>, p: Packet)
    ensures b == Encode(p) <==> Decode(b) == Some(p)
  {
    DecodeEncode(p);
    if Decode(b) == Some(p) {
      EncodeDecode(b, p);
    }
  }

  /** Two packets have the same encoding only if they are the same packet,
      so comparing raw bytes with an encoded packet compares packets. */
  lemma EncodeInjective(p: Packet, q: Packet)
    requires Encode(p) == Encode(q)
    ensures p == q
  {
    DecodeEncode(p);
    DecodeEncode(q);
  }

  /** The probe payload "probe". */
  const PROBE: seq<byte> := Ascii("probe")

  /** The text of the payload is ASCII, so its encoding is valid UTF-8 and
      `from_utf8` cannot fail on it. */
  lemma {:induction false} AsciiPacketIsUtf8(p: Packet)
    requires AllAscii(p.data)
    ensures ValidUtf8(Encode(p))
  {
    assert AllAscii(Encode(p));
    AsciiIsUtf8(Encode(p));
  }
}
