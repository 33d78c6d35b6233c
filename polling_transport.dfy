/** The HTTP long-polling transport client of src/transport.rs: the
    handshake that opens a session, the POST that emits one packet and the
    GET that polls for packets and hands each of them to the registered
    callbacks in order. HTTP is a scripted response, URL parsing, JSON
    parsing and payload decoding are given as functions, the random cache
    token is a parameter, and the callbacks are an invocation log. A Rust
    panic (`unwrap` on `None`, `todo!()`, slicing a string off a character
    boundary) is an explicit outcome. */
module PollingTransport {
  import opened Common
  import opened EnginePacket
  import opened Query

  /** Polling is the only transport this client knows. */
  datatype TransportType = Polling

  newtype int32 = x: int | -0x8000_0000 <= x < 0x8000_0000

  /** The handshake the server answers the opening request with. */
  datatype HandshakeData = HandshakeData(sid: string, upgrades: seq<string>, pingInterval: int32, pingTimeout: int32)

  datatype Error =
    | ActionBeforeOpen          // the connected flag is set
    | HttpError(status: nat)    // the POST was answered with a status other than 200
    | HandshakeError(response: string)
    | InvalidUrl(address: string)
    | RequestFailed             // the HTTP request itself failed
    | DecodeFailed              // the polled payload does not decode

  /** Why a call panicked instead of returning. */
  datatype PanicReason =
    | MissingHandshake          // `connection_data.as_ref().unwrap()`
    | MissingAddress            // `address.as_ref().unwrap()`
    | UrlRejected               // `Url::parse(..).unwrap()`
    | ResponseNotSliceable      // `&response[1..]` off a character boundary
    | Unimplemented(id: PacketId) // `todo!()` on a received control packet

  /** How a call ends: it returns a result, or it panics. */
  datatype Completion = Returned(outcome: Outcome<Error>) | Panicked(reason: PanicReason)

  /** An HTTP request the client sent; a POST carries the packets it encodes. */
  datatype Request = Get(url: string) | Post(url: string, packets: seq<Packet>)

  /** One invocation of a registered callback. */
  datatype Invocation = OpenFired | PacketFired(packet: Packet) | DataFired(data: seq<byte>)

  /** `&response[1..]`: the response without its first character. Rust
      strings are UTF-8, so byte index 1 is a character boundary exactly
      when the response is not empty and starts with an ASCII character;
      otherwise the slice panics (`None` here). */
  function DropFirst(response: string): (r: Option<string>)
    ensures r.Some? <==> |response| > 0 && response[0] as int < 128
    ensures r.Some? ==> [response[0]] + r.value == response
  {
    if |response| > 0 && response[0] as int < 128 then Some(response[1..]) else None
  }

  /** The packets that stop the dispatch loop: everything except Message
      and Noop reaches `todo!()`. */
  predicate IsControl(p: Packet)
  {
    p.id != Message && p.id != Noop
  }

  /** What the dispatch loop did: the callbacks it fired, in order, and the
      kind of the control packet it stopped at, if any. */
  datatype Run = Run(log: seq<Invocation>, halt: Option<PacketId>)

  /** The callbacks one packet fires: `on_packet` with the packet, then, for
      a Message, `on_data` with its data. */
  function Fires(p: Packet, onPacket: bool, onData: bool): seq<Invocation>
  {
    (if onPacket then [PacketFired(p)] else [])
      + (if onData && p.id == Message then [DataFired(p.data)] else [])
  }

  /** The dispatch loop over decoded packets, one packet after another: a
      control packet is still handed to `on_packet`, then the loop stops. */
  function Dispatch(ps: seq<Packet>, onPacket: bool, onData: bool): Run
  {
    if ps == [] then Run([], None)
    else if IsControl(ps[0]) then Run(Fires(ps[0], onPacket, onData), Some(ps[0].id))
    else
      var rest := Dispatch(ps[1..], onPacket, onData);
      Run(Fires(ps[0], onPacket, onData) + rest.log, rest.halt)
  }

  /** The position of the first control packet, or `|ps|` when there is
      none. */
  function FirstControl(ps: seq<Packet>): (k: nat)
    ensures k <= |ps|
    ensures forall j | 0 <= j < k :: !IsControl(ps[j])
    ensures k < |ps| ==> IsControl(ps[k])
  {
    if ps == [] then 0
    else if IsControl(ps[0]) then 0
    else 1 + FirstControl(ps[1..])
  }

  /** The packets the loop reaches: all of them up to and including the
      first control packet. */
  function Reached(ps: seq<Packet>): seq<Packet>
  {
    if FirstControl(ps) < |ps| then ps[..FirstControl(ps) + 1] else ps
  }

  /** The packets handed to `on_packet` in a log. */
  function PacketsOf(log: seq<Invocation>): seq<Packet>
  {
    if log == [] then []
    else (if log[0].PacketFired? then [log[0].packet] else []) + PacketsOf(log[1..])
  }

  /** The data handed to `on_data` in a log. */
  function DataOf(log: seq<Invocation>): seq<seq<byte>>
  {
    if log == [] then []
    else (if log[0].DataFired? then [log[0].data] else []) + DataOf(log[1..])
  }

  /** The data of the Message packets of `ps`, in order. */
  function MessageData(ps: seq<Packet>): seq<seq<byte>>
  {
    if ps == [] then []
    else (if ps[0].id == Message then [ps[0].data] else []) + MessageData(ps[1..])
  }

  lemma {:induction false} PacketsOfAppend(a: seq<Invocation>, b: seq<Invocation>)
    ensures PacketsOf(a + b) == PacketsOf(a) + PacketsOf(b)
  {
    if a != [] {
      assert (a + b)[0] == a[0] && (a + b)[1..] == a[1..] + b;
      PacketsOfAppend(a[1..], b);
    } else {
      assert a + b == b;
    }
  }

  lemma {:induction false} DataOfAppend(a: seq<Invocation>, b: seq<Invocation>)
    ensures DataOf(a + b) == DataOf(a) + DataOf(b)
  {
    if a != [] {
      assert (a + b)[0] == a[0] && (a + b)[1..] == a[1..] + b;
      DataOfAppend(a[1..], b);
    } else {
      assert a + b == b;
    }
  }

  lemma FiresShape(p: Packet, onPacket: bool, onData: bool)
    ensures PacketsOf(Fires(p, onPacket, onData)) == (if onPacket then [p] else [])
    ensures DataOf(Fires(p, onPacket, onData)) == (if onData && p.id == Message then [p.data] else [])
  {
    var a: seq<Invocation> := if onPacket then [PacketFired(p)] else [];
    var b: seq<Invocation> := if onData && p.id == Message then [DataFired(p.data)] else [];
    PacketsOfAppend(a, b);
    DataOfAppend(a, b);
    if a != [] {
      assert a[1..] == [];
      assert PacketsOf(a) == [p] && DataOf(a) == [];
    }
    if b != [] {
      assert b[1..] == [];
      assert PacketsOf(b) == [] && DataOf(b) == [p.data];
    }
  }

  /** The loop stops exactly at the first control packet, reporting its
      kind, and runs to the end when there is none. */
  lemma {:induction false} DispatchHalt(ps: seq<Packet>, onPacket: bool, onData: bool)
    ensures Dispatch(ps, onPacket, onData).halt
      == (if FirstControl(ps) < |ps| then Some(ps[FirstControl(ps)].id) else None)
  {
    if ps != [] && !IsControl(ps[0]) {
      DispatchHalt(ps[1..], onPacket, onData);
    }
  }

  /** One turn of the dispatch loop at position `i`. */
  lemma DispatchStep(ps: seq<Packet>, i: nat, onPacket: bool, onData: bool)
    requires i < |ps|
    ensures IsControl(ps[i]) ==>
      Dispatch(ps[i..], onPacket, onData) == Run(Fires(ps[i], onPacket, onData), Some(ps[i].id))
    ensures !IsControl(ps[i]) ==>
      Dispatch(ps[i..], onPacket, onData).log
        == Fires(ps[i], onPacket, onData) + Dispatch(ps[i + 1..], onPacket, onData).log
      && Dispatch(ps[i..], onPacket, onData).halt == Dispatch(ps[i + 1..], onPacket, onData).halt
  {
    assert ps[i..][0] == ps[i] && ps[i..][1..] == ps[i + 1..];
  }

  /** Past a packet that does not stop the loop, the loop reaches that
      packet and then whatever it reaches from the next one. */
  lemma ReachedCons(ps: seq<Packet>)
    requires ps != [] && !IsControl(ps[0])
    ensures Reached(ps) == [ps[0]] + Reached(ps[1..])
  {
    var k := FirstControl(ps[1..]);
    assert FirstControl(ps) == k + 1;
    if k < |ps[1..]| {
      assert ps[..k + 2] == [ps[0]] + ps[1..][..k + 1];
    } else {
      assert ps == [ps[0]] + ps[1..];
    }
  }

  /** At a control packet the loop reaches that packet alone. */
  lemma ReachedControl(ps: seq<Packet>)
    requires ps != [] && IsControl(ps[0])
    ensures Reached(ps) == [ps[0]]
  {
  }

  lemma MessageDataCons(p: Packet, ps: seq<Packet>)
    ensures MessageData([p] + ps) == (if p.id == Message then [p.data] else []) + MessageData(ps)
  {
    assert ([p] + ps)[0] == p && ([p] + ps)[1..] == ps;
  }

  /** `on_packet` receives every packet the loop reaches, once each, in
      order, including the control packet it stops at. */
  lemma {:induction false} DispatchPackets(ps: seq<Packet>, onPacket: bool, onData: bool)
    ensures PacketsOf(Dispatch(ps, onPacket, onData).log) == (if onPacket then Reached(ps) else [])
  {
    if ps == [] {
    } else if IsControl(ps[0]) {
      FiresShape(ps[0], onPacket, onData);
      ReachedControl(ps);
    } else {
      var rest := Dispatch(ps[1..], onPacket, onData);
      DispatchPackets(ps[1..], onPacket, onData);
      FiresShape(ps[0], onPacket, onData);
      PacketsOfAppend(Fires(ps[0], onPacket, onData), rest.log);
      ReachedCons(ps);
    }
  }

  /** `on_data` receives the data of exactly the Message packets the loop
      reaches, in order; Noop and control packets deliver nothing. */
  lemma {:induction false} DispatchData(ps: seq<Packet>, onPacket: bool, onData: bool)
    ensures DataOf(Dispatch(ps, onPacket, onData).log) == (if onData then MessageData(Reached(ps)) else [])
  {
    if ps == [] {
    } else if IsControl(ps[0]) {
      FiresShape(ps[0], onPacket, onData);
      ReachedControl(ps);
      MessageDataCons(ps[0], []);
    } else {
      var rest := Dispatch(ps[1..], onPacket, onData);
      DispatchData(ps[1..], onPacket, onData);
      FiresShape(ps[0], onPacket, onData);
      DataOfAppend(Fires(ps[0], onPacket, onData), rest.log);
      ReachedCons(ps);
      MessageDataCons(ps[0], Reached(ps[1..]));
    }
  }

  /** The client state of src/transport.rs. A callback slot is modelled by
      whether a function is registered; what it does is its invocation. */
  class TransportClient {
    const transport: TransportType
    var onError: bool
    var onOpen: bool
    var onClose: bool
    var onData: bool
    var onPacket: bool
    var connected: bool
    var address: Option<string>
    var connectionData: Option<HandshakeData>
    /** HTTP requests sent, in order. */
    var requests: seq<Request>
    /** Callback invocations, in order. */
    var fired: seq<Invocation>

    /** A fresh client: polling, no callbacks, not connected, no address
        and no handshake data. */
    constructor ()
      ensures transport == Polling
      ensures !onError && !onOpen && !onClose && !onData && !onPacket
      ensures !connected && address == None && connectionData == None
      ensures requests == [] && fired == []
    {
      transport := Polling;
      onError, onOpen, onClose, onData, onPacket := false, false, false, false, false;
      connected := false;
      address := None;
      connectionData := None;
      requests := [];
      fired := [];
    }

    /** The opening handshake with cache token `t`. `urlParses` is the URL
        parser, `response` the body of the answer to the GET (None when the
        request fails), `parseHandshake` the JSON parser. The parser's
        target is the field's type, `Option<HandshakeData>`, so it accepts
        JSON `null` as `Some(None)` as well as a handshake object as
        `Some(Some(hs))`; None is a parse error. */
    method Open(address: string, t: string, urlParses: string -> bool, response: Option<string>,
                parseHandshake: string -> Option<Option<HandshakeData>>) returns (r: Completion)
      modifies this`address, this`connectionData, this`requests, this`fired
      // already connected: success, nothing changes
      ensures old(connected) ==> r == Returned(Pass) && unchanged(this)
      // an address that does not parse: rejected, nothing stored or sent
      ensures !old(connected) && !urlParses(address + OpenQuery(t)) ==>
        r == Returned(Fail(InvalidUrl(address))) && unchanged(this)
      // otherwise: the address is stored and exactly one GET goes out first
      ensures !old(connected) && urlParses(address + OpenQuery(t)) ==>
        this.address == Some(address) && requests == old(requests) + [Get(address + OpenQuery(t))]
      ensures !old(connected) && urlParses(address + OpenQuery(t)) && response.None? ==>
        r == Returned(Fail(RequestFailed)) && connectionData == old(connectionData) && fired == old(fired)
      ensures (!old(connected) && urlParses(address + OpenQuery(t)) && response.Some?
        && DropFirst(response.value).None?) ==>
        r == Panicked(ResponseNotSliceable) && connectionData == old(connectionData) && fired == old(fired)
      // a body that parses replaces the handshake data, even by None for
      // `null`, and `on_open` fires once
      ensures (!old(connected) && urlParses(address + OpenQuery(t)) && response.Some?
        && DropFirst(response.value).Some? && parseHandshake(DropFirst(response.value).value).Some?) ==>
        r == Returned(Pass) && connectionData == parseHandshake(DropFirst(response.value).value).value
        && fired == old(fired) + (if onOpen then [OpenFired] else [])
      // one that does not leaves the handshake data alone
      ensures (!old(connected) && urlParses(address + OpenQuery(t)) && response.Some?
        && DropFirst(response.value).Some? && parseHandshake(DropFirst(response.value).value).None?) ==>
        r == Returned(Fail(HandshakeError(response.value)))
        && connectionData == old(connectionData) && fired == old(fired)
    {
      if connected {
        return Returned(Pass);
      }
      var fullAddress := address + OpenQuery(t);
      if !urlParses(fullAddress) {
        return Returned(Fail(InvalidUrl(address)));
      }
      this.address := Some(address);
      requests := requests + [Get(fullAddress)];
      if response.None? {
        return Returned(Fail(RequestFailed));
      }
      var body := DropFirst(response.value);
      if body.None? {
        return Panicked(ResponseNotSliceable);
      }
      var data := parseHandshake(body.value);
      if data.Some? {
        connectionData := data.value;
        if onOpen {
          fired := fired + [OpenFired];
        }
        return Returned(Pass);
      }
      r := Returned(Fail(HandshakeError(response.value)));
    }

    /** The URL of a request in the open session, or why building it
        panics: the handshake's session id and the stored address are
        unwrapped, and so is the parse of the result. */
    function SessionUrl(t: string, urlParses: string -> bool): (r: Result<string, PanicReason>)
      reads this`connectionData, this`address
      ensures connectionData.None? ==> r == Err(MissingHandshake)
      ensures connectionData.Some? && address.None? ==> r == Err(MissingAddress)
      ensures r.Ok? <==> (connectionData.Some? && address.Some?
        && urlParses(address.value + SessionQuery(t, connectionData.value.sid)))
      ensures r.Ok? ==> r.value == address.value + SessionQuery(t, connectionData.value.sid)
      ensures r.Err? && connectionData.Some? && address.Some? ==> r.error == UrlRejected
    {
      if connectionData.None? then Err(MissingHandshake)
      else if address.None? then Err(MissingAddress)
      else
        var url := address.value + SessionQuery(t, connectionData.value.sid);
        if urlParses(url) then Ok(url) else Err(UrlRejected)
    }

    /** Sends one packet with a POST; `status` is the answer's status code
        (None when the request fails). The guard is as written: it refuses
        when the connected flag IS set. */
    method Emit(packet: Packet, t: string, urlParses: string -> bool, status: Option<nat>) returns (r: Completion)
      modifies this`requests
      ensures connected ==> r == Returned(Fail(ActionBeforeOpen)) && requests == old(requests)
      ensures !connected && SessionUrl(t, urlParses).Err? ==>
        r == Panicked(SessionUrl(t, urlParses).error) && requests == old(requests)
      ensures !connected && SessionUrl(t, urlParses).Ok? ==>
        requests == old(requests) + [Post(SessionUrl(t, urlParses).value, [packet])]
        && r == Returned(if status.None? then Fail(RequestFailed)
                         else if status.value != 200 then Fail(HttpError(status.value))
                         else Pass)
    {
      if connected {
        return Returned(Fail(ActionBeforeOpen));
      }
      var url := SessionUrl(t, urlParses);
      if url.Err? {
        return Panicked(url.error);
      }
      requests := requests + [Post(url.value, [packet])];
      if status.None? {
        return Returned(Fail(RequestFailed));
      }
      if status.value != 200 {
        return Returned(Fail(HttpError(status.value)));
      }
      r := Returned(Pass);
    }

    /** Polls with a GET and dispatches the decoded packets in order.
        `response` is the answer's body (None when the request fails) and
        `decodePayload` the payload decoder. */
    method Poll(t: string, urlParses: string -> bool, response: Option<seq<byte>>,
                decodePayload: seq<byte> -> Option<seq<Packet>>) returns (r: Completion)
      modifies this`requests, this`fired
      ensures connected ==> r == Returned(Fail(ActionBeforeOpen)) && unchanged(this)
      ensures !connected && SessionUrl(t, urlParses).Err? ==>
        r == Panicked(SessionUrl(t, urlParses).error) && unchanged(this)
      ensures !connected && SessionUrl(t, urlParses).Ok? ==>
        requests == old(requests) + [Get(SessionUrl(t, urlParses).value)]
      ensures !connected && SessionUrl(t, urlParses).Ok? && response.None? ==>
        r == Returned(Fail(RequestFailed)) && fired == old(fired)
      ensures (!connected && SessionUrl(t, urlParses).Ok? && response.Some?
        && decodePayload(response.value).None?) ==>
        r == Returned(Fail(DecodeFailed)) && fired == old(fired)
      ensures (!connected && SessionUrl(t, urlParses).Ok? && response.Some?
        && decodePayload(response.value).Some?) ==>
        var run := Dispatch(decodePayload(response.value).value, onPacket, onData);
        fired == old(fired) + run.log
        && r == (if run.halt.Some? then Panicked(Unimplemented(run.halt.value)) else Returned(Pass))
    {
      if connected {
        return Returned(Fail(ActionBeforeOpen));
      }
      var url := SessionUrl(t, urlParses);
      if url.Err? {
        return Panicked(url.error);
      }
      requests := requests + [Get(url.value)];
      if response.None? {
        return Returned(Fail(RequestFailed));
      }
      var packets := decodePayload(response.value);
      if packets.None? {
        return Returned(Fail(DecodeFailed));
      }
      var halt := Deliver(packets.value);
      if halt.Some? {
        return Panicked(Unimplemented(halt.value));
      }
      r := Returned(Pass);
    }

    /** The callbacks one decoded packet fires: `on_packet` with the
        packet, then `on_data` with a Message's data. */
    method Fire(packet: Packet)
      modifies this`fired
      ensures fired == old(fired) + Fires(packet, onPacket, onData)
    {
      if onPacket {
        fired := fired + [PacketFired(packet)];
      }
      if packet.id == Message && onData {
        fired := fired + [DataFired(packet.data)];
      }
    }

    /** One pass of the loop at position `i`: fire the packet's callbacks
        and stop at a control packet; what remains to fire shrinks to the
        rest of the sequence. */
    method DeliverOne(ps: seq<Packet>, i: nat) returns (stop: bool)
      requires i < |ps|
      modifies this`fired
      ensures stop == IsControl(ps[i])
      ensures stop ==> (fired == old(fired) + Dispatch(ps[i..], onPacket, onData).log
        && Dispatch(ps[i..], onPacket, onData).halt == Some(ps[i].id))
      ensures !stop ==> (fired + Dispatch(ps[i + 1..], onPacket, onData).log
                         == old(fired) + Dispatch(ps[i..], onPacket, onData).log
        && Dispatch(ps[i + 1..], onPacket, onData).halt == Dispatch(ps[i..], onPacket, onData).halt)
    {
      DispatchStep(ps, i, onPacket, onData);
      Fire(ps[i]);
      stop := IsControl(ps[i]);
      if !stop {
        ghost var rest := Dispatch(ps[i + 1..], onPacket, onData).log;
        assert old(fired) + (Fires(ps[i], onPacket, onData) + rest) == fired + rest;
      }
    }

    /** The `for` loop of `poll`: each packet goes to `on_packet`, then a
        Message's data goes to `on_data`, a Noop does nothing more and any
        other kind stops the loop (the `todo!()`), reported as `halt`. */
    method Deliver(ps: seq<Packet>) returns (halt: Option<PacketId>)
      modifies this`fired
      ensures fired == old(fired) + Dispatch(ps, onPacket, onData).log
      ensures halt == Dispatch(ps, onPacket, onData).halt
    {
      ghost var run := Dispatch(ps, onPacket, onData);
      var i := 0;
      while i < |ps|
        invariant 0 <= i <= |ps|
        invariant old(fired) + run.log == fired + Dispatch(ps[i..], onPacket, onData).log
        invariant run.halt == Dispatch(ps[i..], onPacket, onData).halt
      {
        var stop := DeliverOne(ps, i);
        if stop {
          return Some(ps[i].id);
        }
        i := i + 1;
      }
      assert ps[i..] == [];
      halt := None;
    }
  }

  /** A fresh client has no handshake data, so emitting panics on the
      unwrap of the session id before any request is sent. */
  method EmitOnFreshClient(packet: Packet, t: string, urlParses: string -> bool, status: Option<nat>)
    returns (r: Completion, sent: seq<Request>)
    ensures r == Panicked(MissingHandshake)
    ensures sent == []
  {
    var c := new TransportClient();
    r := c.Emit(packet, t, urlParses, status);
    sent := c.requests;
  }

  /** Opening with a handshake and then emitting: because `open` never sets
      the connected flag, the emit passes the guard and POSTs to the
      session path built from the handshake's session id. */
  method OpenThenEmit(address: string, hs: HandshakeData, response: string, t1: string, t2: string,
                      packet: Packet, parseHandshake: string -> Option<Option<HandshakeData>>)
    returns (opening: Completion, emitted: Completion, sent: seq<Request>)
    requires |response| > 0 && response[0] as int < 128
    requires parseHandshake(response[1..]) == Some(Some(hs))
    ensures opening == Returned(Pass) && emitted == Returned(Pass)
    ensures sent == [Get(address + OpenQuery(t1)), Post(address + SessionQuery(t2, hs.sid), [packet])]
  {
    var c := new TransportClient();
    var accept := (url: string) => true;
    opening := c.Open(address, t1, accept, Some(response), parseHandshake);
    emitted := c.Emit(packet, t2, accept, Some(200));
    sent := c.requests;
  }

  /** Opening with a body whose JSON is `null`: the open succeeds and
      fires `on_open`, but stores no handshake, so the following emit
      panics on the unwrap of the session id after only the opening GET. */
  method OpenNullThenEmit(address: string, response: string, t1: string, t2: string,
                          packet: Packet, parseHandshake: string -> Option<Option<HandshakeData>>)
    returns (opening: Completion, emitted: Completion, sent: seq<Request>)
    requires |response| > 0 && response[0] as int < 128
    requires parseHandshake(response[1..]) == Some(None)
    ensures opening == Returned(Pass) && emitted == Panicked(MissingHandshake)
    ensures sent == [Get(address + OpenQuery(t1))]
  {
    var c := new TransportClient();
    var accept := (url: string) => true;
    opening := c.Open(address, t1, accept, Some(response), parseHandshake);
    emitted := c.Emit(packet, t2, accept, Some(200));
    sent := c.requests;
  }
}
