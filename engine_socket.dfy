/** The Engine.IO socket of src/engineio/socket.rs: a two-state lifecycle
    (not connected, connected) guarding what the wrapped transport client
    may do. Callbacks can be registered only before `bind`, packets can be
    emitted only after it, and `bind` itself is refused once connected.
    The transport client's `open` and `emit` are not part of this model:
    their results are inputs, and a successful `open` connects the client.
    The lock around the client and the background poll thread that `bind`
    starts are not modelled. */
module Engine {
  import opened Common
  import opened EnginePacket

  /** The identity of a registered closure. */
  type Handler = nat

  /** The five callback slots of the transport client. */
  datatype CallbackKind = OnOpen | OnClose | OnPacket | OnData | OnError

  datatype Error =
    | ActionBeforeOpen           // emitting before the socket is connected
    | IllegalActionAfterOpen     // binding or registering once connected
    | TransportFailed(reason: string) // an error of the transport client, passed on

  /** One call of the transport client's `emit`: the packet and whether it
      is a binary attachment. */
  datatype Emission = Emission(packet: Packet, binary: bool)

  /** What the socket knows: the connected flag, the bound address, the
      registered callbacks and the emissions handed to the transport. */
  datatype State = State(connected: bool, address: Option<string>,
                         handlers: map<CallbackKind, Handler>, sent: seq<Emission>)

  /** A socket no call has touched yet. */
  const FRESH: State := State(false, None, map[], [])

  /** A call on the socket, with what the transport client answers to it. */
  datatype Op =
    | Bind(address: string, opening: Outcome<Error>)
    | Emit(packet: Packet, sending: Outcome<Error>)
    | EmitBinaryAttachment(attachment: seq<byte>, sending: Outcome<Error>)
    | Register(kind: CallbackKind, handler: Handler)

  /** The state after a call and what the call returns. */
  datatype Step = Step(next: State, outcome: Outcome<Error>)

  /** One call of the lifecycle: the guards of socket.rs, then the
      transport client's answer. */
  function Apply(s: State, op: Op): (t: Step)
    // binding and registering are refused once connected, and change nothing
    ensures s.connected && (op.Bind? || op.Register?) ==> t == Step(s, Fail(IllegalActionAfterOpen))
    // emitting is refused before connecting, and sends nothing
    ensures !s.connected && (op.Emit? || op.EmitBinaryAttachment?) ==> t == Step(s, Fail(ActionBeforeOpen))
    // once connected, the socket stays connected to the same address
    ensures s.connected ==> t.next.connected && t.next.address == s.address && t.next.handlers == s.handlers
    // only a successful bind connects
    ensures !s.connected ==> (t.next.connected <==> op.Bind? && op.opening.Pass?)
    // a connected emit hands the packet on with the binary flag off, and
    // returns what the transport returns
    ensures s.connected && op.Emit? ==>
      t.next.sent == s.sent + [Emission(op.packet, false)] && t.outcome == op.sending
    // a binary attachment travels as a Message packet with the flag on
    ensures s.connected && op.EmitBinaryAttachment? ==>
      t.next.sent == s.sent + [Emission(Packet(Message, op.attachment), true)] && t.outcome == op.sending
    // a registration before connecting fills exactly its own slot
    ensures !s.connected && op.Register? ==>
      t == Step(s.(handlers := s.handlers[op.kind := op.handler]), Pass)
  {
    match op
    case Bind(address, opening) =>
      if s.connected then Step(s, Fail(IllegalActionAfterOpen))
      else if opening.Fail? then Step(s, opening)
      else Step(s.(connected := true, address := Some(address)), Pass)
    case Emit(packet, sending) =>
      if !s.connected then Step(s, Fail(ActionBeforeOpen))
      else Step(s.(sent := s.sent + [Emission(packet, false)]), sending)
    case EmitBinaryAttachment(attachment, sending) =>
      if !s.connected then Step(s, Fail(ActionBeforeOpen))
      else Step(s.(sent := s.sent + [Emission(Packet(Message, attachment), true)]), sending)
    case Register(kind, handler) =>
      if s.connected then Step(s, Fail(IllegalActionAfterOpen))
      else Step(s.(handlers := s.handlers[kind := handler]), Pass)
  }

  /** The state after a sequence of calls. */
  function Run(s: State, ops: seq<Op>): State
    decreases |ops|
  {
    if ops == [] then s else Run(Apply(s, ops[0]).next, ops[1..])
  }

  /** Once connected, no sequence of calls disconnects the socket, rebinds
      it or changes a callback. */
  lemma {:induction false} ConnectedIsFinal(s: State, ops: seq<Op>)
    requires s.connected
    ensures Run(s, ops).connected
    ensures Run(s, ops).address == s.address && Run(s, ops).handlers == s.handlers
    decreases |ops|
  {
    if ops != [] {
      ConnectedIsFinal(Apply(s, ops[0]).next, ops[1..]);
    }
  }

  /** Until a bind succeeds nothing reaches the transport: every emit is
      refused. */
  lemma {:induction false} NothingSentBeforeBind(s: State, ops: seq<Op>)
    requires !s.connected
    requires forall i | 0 <= i < |ops| :: !(ops[i].Bind? && ops[i].opening.Pass?)
    ensures !Run(s, ops).connected && Run(s, ops).sent == s.sent
    decreases |ops|
  {
    if ops != [] {
      NothingSentBeforeBind(Apply(s, ops[0]).next, ops[1..]);
    }
  }

  /** The emissions of a run are those of its start followed by new ones:
      nothing already handed on is ever taken back or reordered. */
  lemma {:induction false} SentOnlyGrows(s: State, ops: seq<Op>)
    ensures |Run(s, ops).sent| >= |s.sent| && Run(s, ops).sent[..|s.sent|] == s.sent
    decreases |ops|
  {
    if ops != [] {
      var t := Apply(s, ops[0]).next;
      SentOnlyGrows(t, ops[1..]);
      assert Run(s, ops).sent[..|t.sent|][..|s.sent|] == Run(s, ops).sent[..|s.sent|];
    }
  }

  /** A registration before connecting sets its own slot and leaves the
      four others as they were. */
  lemma RegisterSetsOwnSlot(s: State, kind: CallbackKind, h: Handler, other: CallbackKind)
    requires !s.connected && other != kind
    ensures Apply(s, Register(kind, h)).next.handlers[kind] == h
    ensures other in Apply(s, Register(kind, h)).next.handlers <==> other in s.handlers
    ensures other in s.handlers ==> Apply(s, Register(kind, h)).next.handlers[other] == s.handlers[other]
  {
  }

  /** The socket: the lifecycle state of the wrapped transport client. */
  class EngineSocket {
    var connected: bool
    var address: Option<string>
    var handlers: map<CallbackKind, Handler>
    var sent: seq<Emission>

    /** The fields as one lifecycle state. */
    function Current(): State
      reads this
    {
      State(connected, address, handlers, sent)
    }

    /** A new socket is not connected and has nothing registered. */
    constructor ()
      ensures Current() == FRESH
    {
      connected := false;
      address := None;
      handlers := map[];
      sent := [];
    }

    /** `bind`: refused once connected; otherwise opens the transport and
        passes on its error, or connects. */
    method Bind(address: string, opening: Outcome<Error>) returns (r: Outcome<Error>)
      modifies this
      ensures Step(Current(), r) == Apply(old(Current()), Op.Bind(address, opening))
    {
      if connected {
        return Fail(IllegalActionAfterOpen);
      }
      if opening.Fail? {
        return opening;
      }
      connected := true;
      this.address := Some(address);
      r := Pass;
    }

    /** `emit`: refused before connecting; otherwise the packet goes to the
        transport as a non-binary emission. */
    method Emit(packet: Packet, sending: Outcome<Error>) returns (r: Outcome<Error>)
      modifies this`sent
      ensures Step(Current(), r) == Apply(old(Current()), Op.Emit(packet, sending))
    {
      var isConnected := IsConnected();
      if !isConnected {
        return Fail(ActionBeforeOpen);
      }
      sent := sent + [Emission(packet, false)];
      r := sending;
    }

    /** `emit_binary_attachment`: refused before connecting; otherwise the
        bytes go to the transport as a Message packet flagged binary. */
    method EmitBinaryAttachment(attachment: seq<byte>, sending: Outcome<Error>) returns (r: Outcome<Error>)
      modifies this`sent
      ensures Step(Current(), r) == Apply(old(Current()), Op.EmitBinaryAttachment(attachment, sending))
    {
      var isConnected := IsConnected();
      if !isConnected {
        return Fail(ActionBeforeOpen);
      }
      var packet := Packet(Message, attachment);
      sent := sent + [Emission(packet, true)];
      r := sending;
    }

    /** The guard shared by the five registrations. */
    method Register(kind: CallbackKind, h: Handler) returns (r: Outcome<Error>)
      modifies this`handlers
      ensures Step(Current(), r) == Apply(old(Current()), Op.Register(kind, h))
    {
      var isConnected := IsConnected();
      if isConnected {
        return Fail(IllegalActionAfterOpen);
      }
      handlers := handlers[kind := h];
      r := Pass;
    }

    method OnOpen(h: Handler) returns (r: Outcome<Error>)
      modifies this`handlers
      ensures Step(Current(), r) == Apply(old(Current()), Op.Register(CallbackKind.OnOpen, h))
    {
      r := Register(CallbackKind.OnOpen, h);
    }

    method OnClose(h: Handler) returns (r: Outcome<Error>)
      modifies this`handlers
      ensures Step(Current(), r) == Apply(old(Current()), Op.Register(CallbackKind.OnClose, h))
    {
      r := Register(CallbackKind.OnClose, h);
    }

    method OnPacket(h: Handler) returns (r: Outcome<Error>)
      modifies this`handlers
      ensures Step(Current(), r) == Apply(old(Current()), Op.Register(CallbackKind.OnPacket, h))
    {
      r := Register(CallbackKind.OnPacket, h);
    }

    method OnData(h: Handler) returns (r: Outcome<Error>)
      modifies this`handlers
      ensures Step(Current(), r) == Apply(old(Current()), Op.Register(CallbackKind.OnData, h))
    {
      r := Register(CallbackKind.OnData, h);
    }

    method OnError(h: Handler) returns (r: Outcome<Error>)
      modifies this`handlers
      ensures Step(Current(), r) == Apply(old(Current()), Op.Register(CallbackKind.OnError, h))
    {
      r := Register(CallbackKind.OnError, h);
    }

    /** `is_connected`: the transport client's connected flag. */
    method IsConnected() returns (b: bool)
      ensures b == connected
    {
      b := connected;
    }
  }

  /** The illegal-action scenario: a new socket refuses both kinds of
      emit; once bound, it refuses every registration. */
  method IllegalActions(url: string, packet: Packet, bytes: seq<byte>, inner: Outcome<Error>, h: Handler)
    returns (before: seq<Outcome<Error>>, bound: Outcome<Error>, after: seq<Outcome<Error>>)
    ensures before == [Fail(ActionBeforeOpen), Fail(ActionBeforeOpen)]
    ensures bound == Pass
    ensures |after| == 5 && forall i | 0 <= i < 5 :: after[i] == Fail(IllegalActionAfterOpen)
  {
    var sut := new EngineSocket();
    var e1 := sut.Emit(packet, inner);
    var e2 := sut.EmitBinaryAttachment(bytes, inner);
    before := [e1, e2];
    bound := sut.Bind(url, Pass);
    var r1 := sut.OnOpen(h);
    var r2 := sut.OnClose(h);
    var r3 := sut.OnPacket(h);
    var r4 := sut.OnData(h);
    var r5 := sut.OnError(h);
    after := [r1, r2, r3, r4, r5];
  }
}
