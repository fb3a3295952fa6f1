/** The two event-producing flows of the controller: the server flow
    (listen, then accept in a loop) and the client flow (connect to one
    device). Each is a function from the state before, the platform and
    the flow's inputs to the state after, the events emitted in order,
    and how the flow ended. */
module ConnectionFlows {
  import opened Domain
  import opened Platform
  import opened ControllerState

  const InterruptedError := "Connection was interrupted"

  datatype Run = Run(state: State, events: seq<ConnectionResult>, end: Termination)

  /** `r` with `prefix` emitted before its events. */
  function After(prefix: seq<ConnectionResult>, r: Run): Run
  {
    Run(r.state, prefix + r.events, r.end)
  }

  /** The incoming messages relayed as TransferSucceeded events. */
  function Relay(incoming: seq<Message>): (r: seq<ConnectionResult>)
    ensures |r| == |incoming|
    ensures forall k :: 0 <= k < |r| ==> r[k] == TransferSucceeded(incoming[k])
  {
    seq(|incoming|, k requires 0 <= k < |incoming| => TransferSucceeded(incoming[k]))
  }

  predicate NoErrorEvent(events: seq<ConnectionResult>)
  {
    forall k :: 0 <= k < |events| ==> !events[k].Error?
  }

  /** `n` copies of event `e`. */
  function Repeat(e: ConnectionResult, n: nat): (r: seq<ConnectionResult>)
    ensures |r| == n
    ensures forall k :: 0 <= k < n ==> r[k] == e
  {
    seq(n, k => e)
  }

  /** True when the calls open no socket: no listen, accept, create or
      connect. */
  predicate OpensNoSocket(calls: seq<Call>)
  {
    forall k :: 0 <= k < |calls| ==>
      !calls[k].Listen? && !calls[k].Accept? && !calls[k].CreateSocket? && !calls[k].Connect?
  }

  /** One iteration of the accept loop: the state after it, the events
      it emits, Some(end) when it ends the flow, and whether the
      listening socket has been closed by then. */
  datatype Step = Step(state: State, emitted: seq<ConnectionResult>, stop: Option<Termination>, listenerClosed: bool)

  /** One iteration of the accept loop from state `s`. Without a
      listening socket nothing is accepted: ConnectionEstablished(None)
      is emitted and the loop goes on. An accept that fails, which it
      always does once the listening socket has been closed, emits
      ConnectionEstablished(None) and ends the loop. An accepted socket
      emits ConnectionEstablished(remote), closes the listening socket and
      becomes the transfer service; a streaming session then has its
      messages relayed and its read failure ends the flow with
      TransferFailed, while a session that is not connected lets the loop
      go on. */
  function ServerStep(s: State, outcome: AcceptOutcome, listenerClosed: bool): (r: Step)
    ensures r.emitted != [] && r.emitted[0].ConnectionEstablished?
    ensures NoErrorEvent(r.emitted)
    ensures r.stop == None || r.stop == Some(Completed) || r.stop == Some(Threw(TransferFailed))
    ensures s.currentServerSocket.None? ==>
      r == Step(s.(currentClientSocket := None), [ConnectionEstablished(None)], None, listenerClosed)
    ensures s.currentServerSocket.Some? && (listenerClosed || outcome.AcceptFailed?) ==>
      && r.emitted == [ConnectionEstablished(None)]
      && r.stop == Some(Completed)
      && r.state.calls == s.calls + [Accept(s.currentServerSocket.value)]
      && r.state.currentClientSocket == None
      && r.state.dataTransferService == s.dataTransferService
    ensures s.currentServerSocket.Some? && !listenerClosed && outcome.Accepted? ==>
      && r.emitted == [ConnectionEstablished(Some(outcome.remote))]
                      + (if outcome.session.Streams? then Relay(outcome.session.incoming) else [])
      && r.stop == (if outcome.session.Streams? then Some(Threw(TransferFailed)) else None)
      && r.state.calls == s.calls + [Accept(s.currentServerSocket.value), Close(s.currentServerSocket.value)]
      && r.state.currentClientSocket == Some(outcome.socket)
      && r.state.dataTransferService == Some(TransferService(outcome.socket))
      && r.listenerClosed
    ensures s.calls <= r.state.calls
    ensures r.state.(currentClientSocket := s.currentClientSocket, dataTransferService := s.dataTransferService,
                     calls := s.calls) == s
  {
    match s.currentServerSocket
    case None => Step(s.(currentClientSocket := None), [ConnectionEstablished(None)], None, listenerClosed)
    case Some(server) =>
      var s1 := s.(calls := s.calls + [Accept(server)]);
      if listenerClosed || outcome.AcceptFailed? then
        Step(s1.(currentClientSocket := None), [ConnectionEstablished(None)], Some(Completed), listenerClosed)
      else
        var s2 := s1.(currentClientSocket := Some(outcome.socket), calls := s1.calls + [Close(server)],
                      dataTransferService := Some(TransferService(outcome.socket)));
        match outcome.session
        case NotConnected => Step(s2, [ConnectionEstablished(Some(outcome.remote))], None, true)
        case Streams(incoming) =>
          Step(s2, [ConnectionEstablished(Some(outcome.remote))] + Relay(incoming), Some(Threw(TransferFailed)), true)
  }

  /** The accept loop of the server flow from state `s`, one element of
      `accepts` per iteration; when they are used up the collector
      cancels the flow. It emits no Error event, and without a listening
      socket it never ends on its own. */
  function ServerLoop(s: State, accepts: seq<AcceptOutcome>, listenerClosed: bool): (r: Run)
    ensures NoErrorEvent(r.events)
    ensures r.end == Completed || r.end == Cancelled || r.end == Threw(TransferFailed)
    ensures accepts != [] ==> r.events != [] && r.events[0].ConnectionEstablished?
    ensures s.currentServerSocket.None? ==>
      r.events == Repeat(ConnectionEstablished(None), |accepts|) && r.end == Cancelled
    ensures s.calls <= r.state.calls
    ensures r.state.(currentClientSocket := s.currentClientSocket, dataTransferService := s.dataTransferService,
                     calls := s.calls) == s
    decreases |accepts|
  {
    if accepts == [] then Run(s, [], Cancelled)
    else
      var step := ServerStep(s, accepts[0], listenerClosed);
      match step.stop
      case Some(end) => Run(step.state, step.emitted, end)
      case None => After(step.emitted, ServerLoop(step.state, accepts[1..], step.listenerClosed))
  }

  /** Emitting `a` and then `b` before a run is emitting `a + b`. */
  lemma AfterAfter(a: seq<ConnectionResult>, b: seq<ConnectionResult>, r: Run)
    ensures After(a, After(b, r)) == After(a + b, r)
  {
  }

  /** startBluetoothServer, up to teardown: the permission check, opening
      the listening socket, and the accept loop. */
  function ServerBody(s: State, env: Env, script: ServerScript): (r: Run)
    ensures !env.connectGranted ==> r == Run(s, [], Threw(SecurityDenied))
    ensures env.connectGranted && env.adapter.Some? && script.listen.ListenFailed? ==>
      r == Run(s, [], Threw(ListenIOFailure))
    ensures env.connectGranted && env.adapter.Some? && script.listen.Listening? ==>
      s.calls + [Listen(ServiceName, ServiceUuid, script.listen.server)] <= r.state.calls
      && r.state.currentServerSocket == Some(script.listen.server)
    ensures env.connectGranted && env.adapter.None? ==> r.state.currentServerSocket == None
    ensures s.calls <= r.state.calls
    ensures r.state.(currentServerSocket := s.currentServerSocket, currentClientSocket := s.currentClientSocket,
                     dataTransferService := s.dataTransferService, calls := s.calls) == s
    ensures NoErrorEvent(r.events)
    ensures r.end == Completed || r.end == Cancelled || r.end == Threw(TransferFailed)
      || r.end == Threw(SecurityDenied) || r.end == Threw(ListenIOFailure)
  {
    if !env.connectGranted then Run(s, [], Threw(SecurityDenied))
    else if env.adapter.None? then ServerLoop(s.(currentServerSocket := None), script.accepts, false)
    else match script.listen
      case ListenFailed => Run(s, [], Threw(ListenIOFailure))
      case Listening(server) =>
        ServerLoop(s.(currentServerSocket := Some(server), calls := s.calls + [Listen(ServiceName, ServiceUuid, server)]), script.accepts, false)
  }

  /** startBluetoothServer: the server flow followed, on every path, by
      closeConnection and updatePairedDevices. It never emits an Error
      event; a denied permission ends it before any socket is opened. */
  function StartBluetoothServer(s: State, env: Env, script: ServerScript): (r: Run)
    ensures r.state.currentServerSocket == None && r.state.currentClientSocket == None
    ensures r.state.pairedDevices == UpdatePairedDevices(s, env).pairedDevices
    ensures r.state.scannedDevices == s.scannedDevices && r.state.isConnected == s.isConnected
    ensures r.state.errors == s.errors
    ensures s.calls <= r.state.calls
    ensures NoErrorEvent(r.events)
    ensures !env.connectGranted ==>
      r.events == [] && r.end == Threw(SecurityDenied) && OpensNoSocket(r.state.calls[|s.calls|..])
      && r.state == Teardown(s, env)
    ensures r.end == Threw(ListenIOFailure) ==> r.events == []
  {
    var body := ServerBody(s, env, script);
    Run(Teardown(body.state, env), body.events, body.end)
  }

  /** The catch block of connectToDevice: the socket is closed and the
      client reference cleared. */
  function Interrupt(s: State, socket: SocketId): (r: State)
    ensures r.currentClientSocket == None
    ensures r.calls == s.calls + [Close(socket)]
    ensures r.(currentClientSocket := s.currentClientSocket, calls := s.calls) == s
  {
    s.(calls := s.calls + [Close(socket)], currentClientSocket := None)
  }

  /** The calls connectToDevice makes for a created socket up to its
      catch block: create, then cancel discovery when the SCAN permission
      allows it, then connect. */
  function ConnectCalls(env: Env, address: string, socket: SocketId): seq<Call>
  {
    [CreateSocket(address, ServiceUuid, socket)] + (if env.scanGranted then [CancelDiscovery] else []) + [Connect(socket)]
  }

  /** connectToDevice, up to teardown. */
  function ConnectBody(s: State, env: Env, device: Device, script: ConnectScript): (r: Run)
    ensures s.calls <= r.state.calls
    ensures r.state.(currentClientSocket := s.currentClientSocket, dataTransferService := s.dataTransferService,
                     calls := s.calls) == s
    ensures forall k :: 0 <= k < |r.events| && r.events[k].Error? ==>
      k == |r.events| - 1 && r.events[k] == Error(InterruptedError)
    ensures r.end == Completed || r.end == Threw(SecurityDenied) || r.end == Threw(CreateIOFailure)
    ensures !env.connectGranted ==> r == Run(s, [], Threw(SecurityDenied))
    ensures env.connectGranted && env.adapter.None? ==>
      r.events == [] && r.end == Completed && r.state.calls == s.calls && r.state.currentClientSocket == None
    ensures env.connectGranted && env.adapter.Some? && script.create.CreateFailed? ==>
      r == Run(s, [], Threw(CreateIOFailure))
    ensures env.connectGranted && env.adapter.Some? && script.create.Created? ==> r.end == Completed
    ensures env.connectGranted && env.adapter.Some? && script.create.Created? && script.connect.ConnectFailed? ==>
      && r.events == [Error(InterruptedError)]
      && r.state.calls == s.calls + ConnectCalls(env, device.address, script.create.socket) + [Close(script.create.socket)]
      && r.state.currentClientSocket == None
      && r.state.dataTransferService == s.dataTransferService
    ensures env.connectGranted && env.adapter.Some? && script.create.Created? && script.connect == Connected(NotConnected) ==>
      && r.events == [ConnectionEstablished(Some(Device(script.remoteName, device.address)))]
      && r.state.calls == s.calls + ConnectCalls(env, device.address, script.create.socket)
      && r.state.currentClientSocket == Some(script.create.socket)
      && r.state.dataTransferService == Some(TransferService(script.create.socket))
    ensures env.connectGranted && env.adapter.Some? && script.create.Created? && script.connect.Connected?
            && script.connect.session.Streams? ==>
      && r.events == [ConnectionEstablished(Some(Device(script.remoteName, device.address)))]
                     + Relay(script.connect.session.incoming) + [Error(InterruptedError)]
      && r.state.calls == s.calls + ConnectCalls(env, device.address, script.create.socket) + [Close(script.create.socket)]
      && r.state.currentClientSocket == None
      && r.state.dataTransferService == Some(TransferService(script.create.socket))
  {
    if !env.connectGranted then Run(s, [], Threw(SecurityDenied))
    else if env.adapter.None? then Run(StopDiscovery(s.(currentClientSocket := None), env), [], Completed)
    else match script.create
      case CreateFailed => Run(s, [], Threw(CreateIOFailure))
      case Created(socket) =>
        var s1 := StopDiscovery(s.(currentClientSocket := Some(socket),
                                   calls := s.calls + [CreateSocket(device.address, ServiceUuid, socket)]), env);
        var s2 := s1.(calls := s1.calls + [Connect(socket)]);
        match script.connect
        case ConnectFailed => Run(Interrupt(s2, socket), [Error(InterruptedError)], Completed)
        case Connected(session) =>
          var s3 := s2.(dataTransferService := Some(TransferService(socket)));
          var established := [ConnectionEstablished(Some(Device(script.remoteName, device.address)))];
          match session
          case NotConnected => Run(s3, established, Completed)
          case Streams(incoming) =>
            Run(Interrupt(s3, socket), established + Relay(incoming) + [Error(InterruptedError)], Completed)
  }

  /** connectToDevice: the client flow followed, on every path, by
      closeConnection and updatePairedDevices. At most one Error event is
      emitted, always "Connection was interrupted" and always last; a
      denied permission ends the flow before any socket is created. */
  function ConnectToDevice(s: State, env: Env, device: Device, script: ConnectScript): (r: Run)
    ensures r.state.currentServerSocket == None && r.state.currentClientSocket == None
    ensures r.state.pairedDevices == UpdatePairedDevices(s, env).pairedDevices
    ensures r.state.scannedDevices == s.scannedDevices && r.state.isConnected == s.isConnected
    ensures r.state.errors == s.errors
    ensures s.calls <= r.state.calls
    ensures forall k :: 0 <= k < |r.events| && r.events[k].Error? ==>
      k == |r.events| - 1 && r.events[k] == Error(InterruptedError)
    ensures r.end == Completed || r.end == Threw(SecurityDenied) || r.end == Threw(CreateIOFailure)
    ensures !env.connectGranted ==>
      r.events == [] && r.end == Threw(SecurityDenied) && OpensNoSocket(r.state.calls[|s.calls|..])
      && r.state == Teardown(s, env)
  {
    var body := ConnectBody(s, env, device, script);
    Run(Teardown(body.state, env), body.events, body.end)
  }

  /** An accept failure on the first iteration emits one
      ConnectionEstablished(None) and ends the flow normally, after one
      listen and one accept. */
  lemma ServerAcceptFailure(s: State, env: Env, server: SocketId, accepts: seq<AcceptOutcome>)
    requires env.connectGranted && env.adapter.Some?
    requires accepts != [] && accepts[0] == AcceptFailed
    ensures var r := StartBluetoothServer(s, env, ServerScript(Listening(server), accepts));
      && r.events == [ConnectionEstablished(None)]
      && r.end == Completed
      && r.state.calls == s.calls + [Listen(ServiceName, ServiceUuid, server), Accept(server), Close(server)]
  {
  }

  /** An accepted, streaming session: ConnectionEstablished(remote), then
      every incoming message in order, then the read failure ends the flow
      with no Error event. The listening socket is closed on accept and
      again by the teardown, which also closes the accepted socket; the
      transfer service stays set. */
  lemma ServerRelaysSession(s: State, env: Env, server: SocketId, accepts: seq<AcceptOutcome>,
                            socket: SocketId, remote: Device, incoming: seq<Message>)
    requires env.connectGranted && env.adapter.Some?
    requires accepts != [] && accepts[0] == Accepted(socket, remote, Streams(incoming))
    ensures var r := StartBluetoothServer(s, env, ServerScript(Listening(server), accepts));
      && r.events == [ConnectionEstablished(Some(remote))] + Relay(incoming)
      && r.end == Threw(TransferFailed)
      && r.state.calls == s.calls + [Listen(ServiceName, ServiceUuid, server), Accept(server), Close(server), Close(socket), Close(server)]
      && r.state.dataTransferService == Some(TransferService(socket))
  {
  }

  /** An accepted socket that reports it is not connected: the listener
      returns at once, the loop goes round, and the next accept is made
      on the listening socket closed at the first accept, so it fails and
      the flow completes after a second ConnectionEstablished(None). */
  lemma ServerSessionNotConnected(s: State, env: Env, server: SocketId, accepts: seq<AcceptOutcome>,
                                  socket: SocketId, remote: Device)
    requires env.connectGranted && env.adapter.Some?
    requires |accepts| >= 2 && accepts[0] == Accepted(socket, remote, NotConnected)
    ensures var r := StartBluetoothServer(s, env, ServerScript(Listening(server), accepts));
      && r.events == [ConnectionEstablished(Some(remote)), ConnectionEstablished(None)]
      && r.end == Completed
      && r.state.calls == s.calls + [Listen(ServiceName, ServiceUuid, server), Accept(server), Close(server),
                                     Accept(server), Close(server)]
      && r.state.dataTransferService == Some(TransferService(socket))
  {
    var s1 := s.(currentServerSocket := Some(server), calls := s.calls + [Listen(ServiceName, ServiceUuid, server)]);
    var first := ServerStep(s1, accepts[0], false);
    assert first.stop == None && first.listenerClosed;
    var second := ServerStep(first.state, accepts[1], true);
    assert accepts[1..][0] == accepts[1];
    assert ServerLoop(first.state, accepts[1..], true) == Run(second.state, second.emitted, Completed);
    assert ServerBody(s, env, ServerScript(Listening(server), accepts))
      == Run(second.state, [ConnectionEstablished(Some(remote)), ConnectionEstablished(None)], Completed);
    assert ClosesOf(second.state) == [Close(server)];
  }

  /** The socket accepted for a session that is not connected is never
      closed: the failed accept on the next iteration overwrites the
      client reference with null before the teardown closes the
      connection, so only the listening socket is closed. */
  lemma ServerLeavesNotConnectedSocketOpen(s: State, env: Env, server: SocketId, accepts: seq<AcceptOutcome>,
                                           socket: SocketId, remote: Device)
    requires env.connectGranted && env.adapter.Some? && socket != server
    requires |accepts| >= 2 && accepts[0] == Accepted(socket, remote, NotConnected)
    ensures Close(socket) !in StartBluetoothServer(s, env, ServerScript(Listening(server), accepts)).state.calls[|s.calls|..]
  {
    ServerSessionNotConnected(s, env, server, accepts, socket, remote);
    var r := StartBluetoothServer(s, env, ServerScript(Listening(server), accepts));
    assert r.state.calls[|s.calls|..] == [Listen(ServiceName, ServiceUuid, server), Accept(server), Close(server),
                                          Accept(server), Close(server)];
  }

  /** Without an adapter the listening socket is null, accept is never
      called, and the loop emits ConnectionEstablished(None) on every
      iteration until the collector cancels it: the flow never ends on
      its own. */
  lemma ServerWithoutAdapterNeverEnds(s: State, env: Env, script: ServerScript)
    requires env.connectGranted && env.adapter.None?
    ensures var r := StartBluetoothServer(s, env, script);
      && r.events == Repeat(ConnectionEstablished(None), |script.accepts|)
      && r.end == Cancelled
  {
  }

  /** The calls connectToDevice makes for a created socket: create, then
      cancel discovery when the SCAN permission allows it, then connect,
      then close it in the catch block, then the teardown closes the
      listening socket if one is still referenced. */
  function ClientCalls(s: State, env: Env, address: string, socket: SocketId): seq<Call>
  {
    ConnectCalls(env, address, socket) + [Close(socket)]
    + (if s.currentServerSocket.Some? then [Close(s.currentServerSocket.value)] else [])
  }

  /** A successful connection whose stream ends in a read failure:
      ConnectionEstablished for the device, every incoming message in
      order, then exactly one Error("Connection was interrupted").
      Discovery is cancelled before the connect call. */
  lemma ConnectRelaysSession(s: State, env: Env, device: Device, script: ConnectScript, socket: SocketId, incoming: seq<Message>)
    requires env.connectGranted && env.adapter.Some?
    requires script.create == Created(socket) && script.connect == Connected(Streams(incoming))
    ensures var r := ConnectToDevice(s, env, device, script);
      && r.events == [ConnectionEstablished(Some(Device(script.remoteName, device.address)))]
                     + Relay(incoming) + [Error(InterruptedError)]
      && r.end == Completed
      && r.state.calls == s.calls + ClientCalls(s, env, device.address, socket)
      && r.state.dataTransferService == Some(TransferService(socket))
  {
  }

  /** A failed connect call: a single Error("Connection was interrupted")
      and the created socket closed. */
  lemma ConnectFailure(s: State, env: Env, device: Device, script: ConnectScript, socket: SocketId)
    requires env.connectGranted && env.adapter.Some?
    requires script.create == Created(socket) && script.connect == ConnectFailed
    ensures var r := ConnectToDevice(s, env, device, script);
      && r.events == [Error(InterruptedError)]
      && r.end == Completed
      && r.state.calls == s.calls + ClientCalls(s, env, device.address, socket)
      && r.state.dataTransferService == s.dataTransferService
  {
  }

  /** Without an adapter no socket is created: the flow emits nothing and
      completes; only discovery cancellation is attempted, which needs the
      adapter, so no call is made before the teardown. */
  lemma ConnectWithoutAdapter(s: State, env: Env, device: Device, script: ConnectScript)
    requires env.connectGranted && env.adapter.None?
    ensures var r := ConnectToDevice(s, env, device, script);
      && r.events == [] && r.end == Completed
      && r.state.calls == s.calls + (if s.currentServerSocket.Some? then [Close(s.currentServerSocket.value)] else [])
  {
  }

  /** Whatever the connect call and the session do, the socket the client
      flow created is closed by the time the flow has completed: by the
      catch block, or else by the teardown's closeConnection. */
  lemma ConnectClosesCreatedSocket(s: State, env: Env, device: Device, script: ConnectScript)
    requires env.connectGranted && env.adapter.Some? && script.create.Created?
    ensures Close(script.create.socket) in ConnectToDevice(s, env, device, script).state.calls[|s.calls|..]
  {
    var body := ConnectBody(s, env, device, script);
    var r := ConnectToDevice(s, env, device, script);
    assert r.state.calls == body.state.calls + ClosesOf(body.state);
    assert r.state.calls[|s.calls|..] == body.state.calls[|s.calls|..] + ClosesOf(body.state);
    var socket := script.create.socket;
    if script.connect == Connected(NotConnected) {
      assert ClosesOf(body.state)[0] == Close(socket);
    } else {
      var own := ConnectCalls(env, device.address, socket) + [Close(socket)];
      assert body.state.calls[|s.calls|..] == own;
      assert own[|own| - 1] == Close(socket);
    }
  }

  /** closeConnection does not clear the transfer service, so after a
      client flow that connected, trySendMessage still writes to the
      socket the flow has already closed and still returns the message
      as sent. */
  lemma SendAfterConnectionEnds(s: State, env: Env, device: Device, script: ConnectScript,
                                socket: SocketId, session: Session, text: string)
    requires env.connectGranted && env.adapter.Some?
    requires script.create == Created(socket) && script.connect == Connected(session)
    ensures var after := ConnectToDevice(s, env, device, script).state;
      var sent := TrySendMessage(after, env, text);
      && sent.message == Some(Message(SenderName(env), text, true))
      && Close(socket) in after.calls
      && sent.state.calls == after.calls + [Write(socket, sent.message.value)]
  {
  }
}
