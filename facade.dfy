/** The public socket and its builder in src/lib.rs: the builder starts on
    the default namespace "/", accepts a namespace only when it starts
    with '/', and hands out the socket once it has connected. The
    transport client behind the socket is not part of this model: its
    `connect` result is an input, and its callback registration follows
    the rule the socket documents (refused after `connect`). */
module Facade {
  import opened Common

  datatype Error =
    | IllegalNamespace(nsp: string)   // carries the rejected namespace
    | IllegalActionAfterOpen          // a callback registered after connecting
    | ConnectFailed(reason: string)   // an error of the transport's connect

  /** The identity of a registered closure. */
  type Handler = nat

  const DEFAULT_NAMESPACE: string := "/"

  /** The namespace check of `set_namespace`: accepted exactly when it
      starts with '/', and otherwise rejected with the namespace itself. */
  function CheckNamespace(nsp: string): (r: Outcome<Error>)
    ensures r.Pass? <==> |nsp| > 0 && nsp[0] == '/'
    ensures r.Fail? ==> r.error == IllegalNamespace(nsp)
  {
    if !StartsWith(nsp, '/') then Fail(IllegalNamespace(nsp)) else Pass
  }

  /** "/admin" is accepted; "admin", "" and the default namespace are
      judged as the rule says. */
  lemma NamespaceExamples()
    ensures CheckNamespace("/admin") == Pass
    ensures CheckNamespace(DEFAULT_NAMESPACE) == Pass
    ensures CheckNamespace("admin") == Fail(IllegalNamespace("admin"))
    ensures CheckNamespace("") == Fail(IllegalNamespace(""))
  {
  }

  /** Accepting depends on the first character only: whatever follows a
      leading '/' is accepted, and nothing rescues a name without one. */
  lemma NamespaceFirstCharacter(nsp: string, rest: string)
    ensures CheckNamespace("/" + rest) == Pass
    ensures CheckNamespace(nsp).Fail? ==> CheckNamespace(nsp + rest).Fail? || nsp == []
  {
    assert ("/" + rest)[0] == '/';
    if nsp != [] {
      assert (nsp + rest)[0] == nsp[0];
    }
  }

  class Socket {
    const address: string
    /** The namespace the transport client will join. */
    var nsp: Option<string>
    var handlers: map<string, Handler>
    var connected: bool

    /** `Socket::new`: a socket for `address` on `namespace`. */
    constructor (address: string, namespace: Option<string>)
      ensures this.address == address && nsp == namespace
      ensures handlers == map[] && !connected
    {
      this.address := address;
      nsp := namespace;
      handlers := map[];
      connected := false;
    }

    /** `Socket::set_namespace`: the namespace becomes `Some(namespace)`;
        nothing else changes. */
    method SetNamespace(namespace: string)
      modifies this`nsp
      ensures nsp == Some(namespace)
    {
      nsp := Some(namespace);
    }

    /** `Socket::on`: refused once connected, otherwise registers the
        callback for the event name. */
    method On(event: string, callback: Handler) returns (r: Outcome<Error>)
      modifies this`handlers
      ensures connected ==> r == Fail(IllegalActionAfterOpen) && handlers == old(handlers)
      ensures !connected ==> r == Pass && handlers == old(handlers)[event := callback]
    {
      if connected {
        return Fail(IllegalActionAfterOpen);
      }
      handlers := handlers[event := callback];
      r := Pass;
    }

    /** `Socket::connect`: the transport's result, connected on success. */
    method Connect(connecting: Outcome<Error>) returns (r: Outcome<Error>)
      modifies this`connected
      ensures r == connecting
      ensures connected == (old(connected) || connecting.Pass?)
    {
      if connecting.Pass? {
        connected := true;
      }
      r := connecting;
    }
  }

  class SocketBuilder {
    /** The socket under construction. */
    const socket: Socket

    /** `SocketBuilder::new`: a socket for `address` on the default
        namespace "/". */
    constructor (address: string)
      ensures fresh(socket)
      ensures socket.address == address && socket.nsp == Some(DEFAULT_NAMESPACE)
      ensures socket.handlers == map[] && !socket.connected
    {
      socket := new Socket(address, Some(DEFAULT_NAMESPACE));
    }

    /** `SocketBuilder::set_namespace`: the builder itself when the
        namespace is accepted, which then replaces the socket's namespace;
        otherwise the rejection, with the socket untouched. */
    method SetNamespace(namespace: string) returns (r: Result<SocketBuilder, Error>)
      modifies socket`nsp
      ensures CheckNamespace(namespace).Fail? ==>
        r == Err(CheckNamespace(namespace).error) && socket.nsp == old(socket.nsp)
      ensures CheckNamespace(namespace).Pass? ==> r == Ok(this) && socket.nsp == Some(namespace)
    {
      var check := CheckNamespace(namespace);
      if check.Fail? {
        return Err(check.error);
      }
      socket.SetNamespace(namespace);
      r := Ok(this);
    }

    /** `SocketBuilder::on`: registers the callback on the socket. The
        socket of a builder is never connected, since `connect` consumes
        the builder, so the registration cannot be refused. */
    method On(event: string, callback: Handler) returns (b: SocketBuilder)
      requires !socket.connected
      modifies socket`handlers
      ensures b == this && !socket.connected
      ensures socket.handlers == old(socket.handlers)[event := callback]
    {
      var registered := socket.On(event, callback);
      b := this;
    }

    /** `SocketBuilder::connect`: the socket, connected, when the
        transport connects; otherwise the transport's error. */
    method Connect(connecting: Outcome<Error>) returns (r: Result<Socket, Error>)
      modifies socket`connected
      ensures connecting.Fail? ==> r == Err(connecting.error)
      ensures connecting.Pass? ==> r == Ok(socket) && socket.connected
    {
      var outcome := socket.Connect(connecting);
      if outcome.Fail? {
        return Err(outcome.error);
      }
      r := Ok(socket);
    }
  }

  /** The builder scenario: "/admin" is accepted and becomes the socket's
      namespace, three callbacks are registered, and after connecting a
      further registration is refused. */
  method AdminBuilder(address: string, h: Handler)
    returns (nsp: Option<string>, handlers: map<string, Handler>, late: Outcome<Error>)
    ensures nsp == Some("/admin")
    ensures handlers == map["error" := h, "test" := h + 1, "message" := h + 2]
    ensures late == Fail(IllegalActionAfterOpen)
  {
    var builder := new SocketBuilder(address);
    NamespaceExamples();
    var accepted := builder.SetNamespace("/admin");
    builder := accepted.value;
    builder := builder.On("error", h);
    builder := builder.On("test", h + 1);
    builder := builder.On("message", h + 2);
    var socket := builder.Connect(Pass);
    nsp, handlers := socket.value.nsp, socket.value.handlers;
    late := socket.value.On("test", h);
  }
}
