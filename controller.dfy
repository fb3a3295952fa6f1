/** AndroidBluetoothController: the object whose methods update the
    device lists, the connected flag, the socket references and the
    transfer service in place. Each method is proved to leave the fields
    as the matching function of ControllerState or ConnectionFlows says. */
module Controller {
  import opened Domain
  import opened Platform
  import Discovery
  import ControllerState
  import ConnectionFlows

  class AndroidBluetoothController {
    var scannedDevices: seq<Device>
    var pairedDevices: seq<Device>
    var isConnected: bool
    var errors: seq<string>
    var currentServerSocket: Option<SocketId>
    var currentClientSocket: Option<SocketId>
    var dataTransferService: Option<ControllerState.TransferService>
    var calls: seq<Call>

    /** The scanned list never holds two equal devices. */
    ghost predicate Valid()
      reads this
    {
      Discovery.NoDuplicates(scannedDevices)
    }

    /** The fields as one state value. */
    ghost function Snapshot(): ControllerState.State
      reads this
    {
      ControllerState.State(scannedDevices, pairedDevices, isConnected, errors,
                            currentServerSocket, currentClientSocket, dataTransferService, calls)
    }

    constructor (env: Env)
      ensures Valid() && Snapshot() == ControllerState.Initial(env)
    {
      scannedDevices := [];
      pairedDevices := [];
      isConnected := false;
      errors := [];
      currentServerSocket := None;
      currentClientSocket := None;
      dataTransferService := None;
      calls := [];
      new;
      UpdatePairedDevices(env);
      calls := calls + [RegisterStateReceiver];
    }

    /** The found-device receiver. */
    method OnDeviceFound(device: Device)
      requires Valid()
      modifies this
      ensures Valid() && Snapshot() == ControllerState.OnDeviceFound(old(Snapshot()), device)
    {
      if device !in scannedDevices {
        scannedDevices := scannedDevices + [device];
      }
    }

    /** The connection-state receiver. */
    method OnConnectionStateChanged(env: Env, connected: bool, device: Device)
      requires Valid()
      modifies this
      ensures Valid() && Snapshot() == ControllerState.OnConnectionStateChanged(old(Snapshot()), env, connected, device)
    {
      if env.adapter.Some? && device in env.adapter.value.bonded {
        isConnected := connected;
      } else {
        errors := errors + [ControllerState.NonPairedError];
      }
    }

    method StartDiscovery(env: Env)
      requires Valid()
      modifies this
      ensures Valid() && Snapshot() == ControllerState.StartDiscovery(old(Snapshot()), env)
    {
      if !env.scanGranted {
        return;
      }
      calls := calls + [RegisterFoundReceiver];
      UpdatePairedDevices(env);
      var discoveryResult := false;
      if env.adapter.Some? {
        calls := calls + [Call.StartDiscovery];
        discoveryResult := env.adapter.value.discoveryStarts;
      }
      if !discoveryResult {
        errors := errors + [ControllerState.DiscoveryFailedError];
      }
    }

    method StopDiscovery(env: Env)
      requires Valid()
      modifies this
      ensures Valid() && Snapshot() == ControllerState.StopDiscovery(old(Snapshot()), env)
    {
      if !env.scanGranted {
        return;
      }
      if env.adapter.Some? {
        calls := calls + [CancelDiscovery];
      }
    }

    /** startBluetoothServer: returns the events the flow emits, in
        order, and how it ended. */
    method StartBluetoothServer(env: Env, script: ServerScript) returns (events: seq<ConnectionResult>, end: Termination)
      requires Valid()
      modifies this
      ensures Valid()
      ensures var r := ConnectionFlows.StartBluetoothServer(old(Snapshot()), env, script);
        Snapshot() == r.state && events == r.events && end == r.end
    {
      events := [];
      end := Completed;
      if !env.connectGranted {
        end := Threw(SecurityDenied);
      } else {
        var listening := true;
        if env.adapter.None? {
          currentServerSocket := None;
        } else if script.listen.ListenFailed? {
          end := Threw(ListenIOFailure);
          listening := false;
        } else {
          currentServerSocket := Some(script.listen.server);
          calls := calls + [Listen(ServiceName, ServiceUuid, script.listen.server)];
        }
        if listening {
          // the `while (shouldLoop)` accept loop
          ghost var start := Snapshot();
          assert ConnectionFlows.ServerBody(old(Snapshot()), env, script) == ConnectionFlows.ServerLoop(start, script.accepts, false);
          var accepts := script.accepts;
          var i := 0;
          var shouldLoop := true;
          // the listening socket is closed once a socket has been accepted
          var listenerClosed := false;
          while shouldLoop
            invariant i <= |accepts|
            invariant Valid()
            invariant shouldLoop ==> end == Completed
            invariant shouldLoop ==>
              ConnectionFlows.ServerLoop(start, accepts, false)
              == ConnectionFlows.After(events, ConnectionFlows.ServerLoop(Snapshot(), accepts[i..], listenerClosed))
            invariant !shouldLoop ==>
              ConnectionFlows.ServerLoop(start, accepts, false) == ConnectionFlows.Run(Snapshot(), events, end)
            decreases |accepts| - i, shouldLoop
          {
            if i == |accepts| {
              // the collector stops collecting: the flow is cancelled
              assert accepts[i..] == [] && events + [] == events;
              end := Cancelled;
              shouldLoop := false;
            } else {
              ghost var before := events;
              ghost var goal := ConnectionFlows.ServerLoop(Snapshot(), accepts[i..], listenerClosed);
              assert accepts[i..][0] == accepts[i] && accepts[i..][1..] == accepts[i + 1..];
              var emitted, stop;
              emitted, stop, listenerClosed := AcceptIteration(accepts[i], listenerClosed);
              i := i + 1;
              events := events + emitted;
              if stop.Some? {
                end := stop.value;
                shouldLoop := false;
                assert goal == ConnectionFlows.Run(Snapshot(), emitted, end);
              } else {
                assert goal == ConnectionFlows.After(emitted, ConnectionFlows.ServerLoop(Snapshot(), accepts[i..], listenerClosed));
                ConnectionFlows.AfterAfter(before, emitted, ConnectionFlows.ServerLoop(Snapshot(), accepts[i..], listenerClosed));
              }
            }
          }
        }
      }
      assert var body := ConnectionFlows.ServerBody(old(Snapshot()), env, script);
        Snapshot() == body.state && events == body.events && end == body.end;
      CloseConnection();
      UpdatePairedDevices(env);
    }

    /** One pass of the accept loop's body: returns the events it emits,
        Some(end) when it ends the flow, and whether the listening socket
        is closed afterwards (an accept on a closed socket fails). */
    method AcceptIteration(outcome: AcceptOutcome, listenerClosed: bool)
      returns (emitted: seq<ConnectionResult>, stop: Option<Termination>, closed: bool)
      requires Valid()
      modifies this
      ensures Valid()
      ensures var step := ConnectionFlows.ServerStep(old(Snapshot()), outcome, listenerClosed);
        Snapshot() == step.state && emitted == step.emitted && stop == step.stop && closed == step.listenerClosed
    {
      stop := None;
      closed := listenerClosed;
      if currentServerSocket.None? {
        currentClientSocket := None;
        emitted := [ConnectionEstablished(None)];
        return;
      }
      var server := currentServerSocket.value;
      calls := calls + [Accept(server)];
      if listenerClosed || outcome.AcceptFailed? {
        stop := Some(Completed);
        currentClientSocket := None;
        emitted := [ConnectionEstablished(None)];
      } else {
        var socket, remote, session := outcome.socket, outcome.remote, outcome.session;
        closed := true;
        currentClientSocket := Some(socket);
        emitted := [ConnectionEstablished(Some(remote))];
        calls := calls + [Close(server)];
        dataTransferService := Some(ControllerState.TransferService(socket));
        if session.Streams? {
          emitted := RelayIncoming(emitted, session.incoming);
          stop := Some(Threw(TransferFailed));
        }
      }
    }

    /** connectToDevice: returns the events the flow emits, in order, and
        how it ended. */
    method ConnectToDevice(env: Env, device: Device, script: ConnectScript) returns (events: seq<ConnectionResult>, end: Termination)
      requires Valid()
      modifies this
      ensures Valid()
      ensures var r := ConnectionFlows.ConnectToDevice(old(Snapshot()), env, device, script);
        Snapshot() == r.state && events == r.events && end == r.end
    {
      events := [];
      end := Completed;
      if !env.connectGranted {
        end := Threw(SecurityDenied);
      } else if env.adapter.None? {
        currentClientSocket := None;
        StopDiscovery(env);
      } else if script.create.CreateFailed? {
        end := Threw(CreateIOFailure);
      } else {
        var socket := script.create.socket;
        currentClientSocket := Some(socket);
        calls := calls + [CreateSocket(device.address, ServiceUuid, socket)];
        StopDiscovery(env);
        calls := calls + [Connect(socket)];
        var interrupted := true;
        if script.connect.Connected? {
          events := events + [ConnectionEstablished(Some(Device(script.remoteName, device.address)))];
          dataTransferService := Some(ControllerState.TransferService(socket));
          match script.connect.session
          case NotConnected =>
            interrupted := false;
          case Streams(incoming) =>
            events := RelayIncoming(events, incoming);
        }
        if interrupted {
          calls := calls + [Close(socket)];
          currentClientSocket := None;
          events := events + [Error(ConnectionFlows.InterruptedError)];
        }
      }
      assert var body := ConnectionFlows.ConnectBody(old(Snapshot()), env, device, script);
        Snapshot() == body.state && events == body.events && end == body.end;
      CloseConnection();
      UpdatePairedDevices(env);
    }

    /** emitAll over the listener's messages: each one is emitted as a
        TransferSucceeded event, in order. */
    static method RelayIncoming(events: seq<ConnectionResult>, incoming: seq<Message>) returns (r: seq<ConnectionResult>)
      ensures r == events + ConnectionFlows.Relay(incoming)
    {
      r := events;
      for k := 0 to |incoming|
        invariant |r| == |events| + k
        invariant r[..|events|] == events
        invariant forall j :: 0 <= j < k ==> r[|events| + j] == TransferSucceeded(incoming[j])
      {
        r := r + [TransferSucceeded(incoming[k])];
      }
    }

    /** trySendMessage: returns the message sent, or None when nothing was
        sent. */
    method TrySendMessage(env: Env, message: string) returns (sent: Option<Message>)
      requires Valid()
      modifies this
      ensures Valid()
      ensures var r := ControllerState.TrySendMessage(old(Snapshot()), env, message);
        Snapshot() == r.state && sent == r.message
    {
      if !env.connectGranted {
        return None;
      }
      if dataTransferService.None? {
        return None;
      }
      var service := dataTransferService.value;
      var bluetoothMessage := Message(ControllerState.SenderName(env), message, true);
      calls := calls + [Write(service.socket, bluetoothMessage)];
      sent := Some(bluetoothMessage);
    }

    method CloseConnection()
      requires Valid()
      modifies this
      ensures Valid() && Snapshot() == ControllerState.CloseConnection(old(Snapshot()))
    {
      if currentClientSocket.Some? {
        calls := calls + [Close(currentClientSocket.value)];
      }
      if currentServerSocket.Some? {
        calls := calls + [Close(currentServerSocket.value)];
      }
      currentClientSocket := None;
      currentServerSocket := None;
    }

    method Release()
      requires Valid()
      modifies this
      ensures Valid() && Snapshot() == ControllerState.Release(old(Snapshot()))
    {
      calls := calls + [UnregisterFoundReceiver, UnregisterStateReceiver];
      CloseConnection();
    }

    method UpdatePairedDevices(env: Env)
      requires Valid()
      modifies this
      ensures Valid() && Snapshot() == ControllerState.UpdatePairedDevices(old(Snapshot()), env)
    {
      if !env.connectGranted {
        return;
      }
      if env.adapter.Some? {
        pairedDevices := env.adapter.value.bonded;
      }
    }
  }
}
