/** The bookkeeping state of the Bluetooth controller as a value, and each
    of its operations as a function from the state before to the state
    after. The class in module Controller is proved against these. */
module ControllerState {
  import opened Domain
  import opened Platform
  import Discovery

  /** The transfer service built around one connected socket. */
  datatype TransferService = TransferService(socket: SocketId)

  /** The controller's fields: the two device lists, the connected flag,
      the error messages emitted so far, the two socket references, the
      current transfer service, and the calls made into the platform. */
  datatype State = State(
    scannedDevices: seq<Device>,
    pairedDevices: seq<Device>,
    isConnected: bool,
    errors: seq<string>,
    currentServerSocket: Option<SocketId>,
    currentClientSocket: Option<SocketId>,
    dataTransferService: Option<TransferService>,
    calls: seq<Call>)

  const NonPairedError := "Can't connect to a non-paired device"
  const DiscoveryFailedError := "Starting discovery failed!"
  const UnknownSender := "Unknown"

  /** True when the adapter exists and lists `device` as bonded. */
  predicate Bonded(env: Env, device: Device)
  {
    env.adapter.Some? && device in env.adapter.value.bonded
  }

  /** True when updatePairedDevices reaches the bond store. */
  predicate CanReadBonds(env: Env)
  {
    env.connectGranted && env.adapter.Some?
  }

  /** updatePairedDevices: replaces the paired list by the bonded devices
      when the CONNECT permission is granted and an adapter exists. */
  function UpdatePairedDevices(s: State, env: Env): (r: State)
    ensures CanReadBonds(env) ==> r.pairedDevices == env.adapter.value.bonded
    ensures !CanReadBonds(env) ==> r.pairedDevices == s.pairedDevices
    ensures r.(pairedDevices := s.pairedDevices) == s
  {
    if CanReadBonds(env) then s.(pairedDevices := env.adapter.value.bonded) else s
  }

  /** The state right after construction: paired list read once, the
      connection-state receiver registered, everything else empty. */
  function Initial(env: Env): (r: State)
    ensures r.scannedDevices == [] && !r.isConnected && r.errors == []
    ensures r.currentServerSocket == None && r.currentClientSocket == None && r.dataTransferService == None
    ensures r.pairedDevices == (if CanReadBonds(env) then env.adapter.value.bonded else [])
    ensures r.calls == [RegisterStateReceiver]
  {
    var s := UpdatePairedDevices(State([], [], false, [], None, None, None, []), env);
    s.(calls := s.calls + [RegisterStateReceiver])
  }

  /** The found-device receiver: the device joins the scanned list unless
      an equal device is already there; nothing else changes. */
  function OnDeviceFound(s: State, device: Device): (r: State)
    ensures s.scannedDevices <= r.scannedDevices
    ensures device in r.scannedDevices
    ensures r == s <==> device in s.scannedDevices
    ensures r.(scannedDevices := s.scannedDevices) == s
  {
    s.(scannedDevices := Discovery.AddFound(s.scannedDevices, device))
  }

  /** The connection-state receiver: for a bonded device the connected
      flag takes the reported value; for any other device the flag stays
      and one error is emitted. */
  function OnConnectionStateChanged(s: State, env: Env, connected: bool, device: Device): (r: State)
    ensures Bonded(env, device) ==> r.isConnected == connected && r.errors == s.errors
    ensures !Bonded(env, device) ==> r.isConnected == s.isConnected && r.errors == s.errors + [NonPairedError]
    ensures r.(isConnected := s.isConnected, errors := s.errors) == s
  {
    if Bonded(env, device) then s.(isConnected := connected)
    else s.(errors := s.errors + [NonPairedError])
  }

  /** startDiscovery: without the SCAN permission nothing happens. With
      it, the found-device receiver is registered, the paired list is
      refreshed and discovery is requested; an error is emitted exactly
      when there is no adapter or the adapter refuses. */
  function StartDiscovery(s: State, env: Env): (r: State)
    ensures !env.scanGranted ==> r == s
    ensures env.scanGranted ==> r.pairedDevices == UpdatePairedDevices(s, env).pairedDevices
    ensures env.scanGranted ==>
      r.calls == s.calls + [RegisterFoundReceiver] + (if env.adapter.Some? then [Call.StartDiscovery] else [])
    ensures env.scanGranted && (env.adapter.None? || !env.adapter.value.discoveryStarts) ==>
      r.errors == s.errors + [DiscoveryFailedError]
    ensures env.scanGranted && env.adapter.Some? && env.adapter.value.discoveryStarts ==> r.errors == s.errors
    ensures r.(pairedDevices := s.pairedDevices, errors := s.errors, calls := s.calls) == s
  {
    if !env.scanGranted then s
    else
      var s1 := UpdatePairedDevices(s.(calls := s.calls + [RegisterFoundReceiver]), env);
      match env.adapter
      case None => s1.(errors := s1.errors + [DiscoveryFailedError])
      case Some(adapter) =>
        var s2 := s1.(calls := s1.calls + [Call.StartDiscovery]);
        if adapter.discoveryStarts then s2 else s2.(errors := s2.errors + [DiscoveryFailedError])
  }

  /** stopDiscovery: with the SCAN permission and an adapter, asks the
      adapter to cancel discovery; otherwise nothing happens. */
  function StopDiscovery(s: State, env: Env): (r: State)
    ensures env.scanGranted && env.adapter.Some? ==> r.calls == s.calls + [CancelDiscovery]
    ensures !(env.scanGranted && env.adapter.Some?) ==> r == s
    ensures r.(calls := s.calls) == s
  {
    if env.scanGranted && env.adapter.Some? then s.(calls := s.calls + [CancelDiscovery]) else s
  }

  /** The socket handles closeConnection closes, client first. */
  function ClosesOf(s: State): seq<Call>
  {
    (if s.currentClientSocket.Some? then [Close(s.currentClientSocket.value)] else [])
    + (if s.currentServerSocket.Some? then [Close(s.currentServerSocket.value)] else [])
  }

  /** closeConnection: closes whichever sockets are referenced and clears
      both references. The transfer service, the device lists and the
      connected flag are kept. */
  function CloseConnection(s: State): (r: State)
    ensures r.currentServerSocket == None && r.currentClientSocket == None
    ensures r.calls == s.calls + ClosesOf(s)
    ensures |r.calls| <= |s.calls| + 2
    ensures forall k :: |s.calls| <= k < |r.calls| ==> r.calls[k].Close?
    ensures s.currentClientSocket.Some? ==> Close(s.currentClientSocket.value) in r.calls[|s.calls|..]
    ensures s.currentServerSocket.Some? ==> Close(s.currentServerSocket.value) in r.calls[|s.calls|..]
    ensures s.currentClientSocket.None? && s.currentServerSocket.None? ==> r == s
    ensures r.(currentServerSocket := s.currentServerSocket, currentClientSocket := s.currentClientSocket, calls := s.calls) == s
  {
    s.(calls := s.calls + ClosesOf(s), currentClientSocket := None, currentServerSocket := None)
  }

  /** release: unregisters both receivers, then closes the connection. */
  function Release(s: State): (r: State)
    ensures r.currentServerSocket == None && r.currentClientSocket == None
    ensures r.calls == s.calls + [UnregisterFoundReceiver, UnregisterStateReceiver] + ClosesOf(s)
    ensures r.(currentServerSocket := s.currentServerSocket, currentClientSocket := s.currentClientSocket, calls := s.calls) == s
  {
    CloseConnection(s.(calls := s.calls + [UnregisterFoundReceiver, UnregisterStateReceiver]))
  }

  /** Teardown run when a connection flow completes in any way. */
  function Teardown(s: State, env: Env): (r: State)
    ensures r.currentServerSocket == None && r.currentClientSocket == None
    ensures r.pairedDevices == UpdatePairedDevices(s, env).pairedDevices
    ensures r.calls == s.calls + ClosesOf(s)
    ensures r.(currentServerSocket := s.currentServerSocket, currentClientSocket := s.currentClientSocket,
               pairedDevices := s.pairedDevices, calls := s.calls) == s
  {
    UpdatePairedDevices(CloseConnection(s), env)
  }

  /** The sender label of a locally composed message. */
  function SenderName(env: Env): (name: string)
    ensures env.adapter.Some? && env.adapter.value.name.Some? ==> name == env.adapter.value.name.value
    ensures env.adapter.None? || env.adapter.value.name.None? ==> name == UnknownSender
  {
    if env.adapter.Some? && env.adapter.value.name.Some? then env.adapter.value.name.value else UnknownSender
  }

  datatype Sent = Sent(state: State, message: Option<Message>)

  /** trySendMessage: without the CONNECT permission or a transfer service
      it writes nothing and returns None. Otherwise it makes exactly one
      write to the service's socket and returns the written message,
      whatever the write's outcome. */
  function TrySendMessage(s: State, env: Env, text: string): (r: Sent)
    ensures r.message.None? <==> !env.connectGranted || s.dataTransferService.None?
    ensures r.message.None? ==> r.state == s
    ensures r.message.Some? ==>
      && r.message.value.isFromLocalUser
      && r.message.value.message == text
      && r.message.value.senderName == SenderName(env)
      && r.state.calls == s.calls + [Write(s.dataTransferService.value.socket, r.message.value)]
    ensures r.state.(calls := s.calls) == s
  {
    if !env.connectGranted || s.dataTransferService.None? then Sent(s, None)
    else
      var message := Message(SenderName(env), text, true);
      Sent(s.(calls := s.calls + [Write(s.dataTransferService.value.socket, message)]), Some(message))
  }

  /** Closing twice leaves the same state as closing once. */
  lemma CloseConnectionIdempotent(s: State)
    ensures CloseConnection(CloseConnection(s)) == CloseConnection(s)
  {
  }

  /** A run of discovery notifications, handled one after another,
      leaves every other field alone and keeps the scanned list free of
      duplicates. */
  lemma {:induction false} OnDeviceFoundRun(s: State, found: seq<Device>)
    requires Discovery.NoDuplicates(s.scannedDevices)
    ensures FoundRun(s, found).scannedDevices == Discovery.ScanAll(s.scannedDevices, found)
    ensures Discovery.NoDuplicates(FoundRun(s, found).scannedDevices)
    ensures FoundRun(s, found).(scannedDevices := s.scannedDevices) == s
  {
    if found != [] {
      OnDeviceFoundRun(s, found[..|found| - 1]);
    }
    Discovery.ScanAllExtends(s.scannedDevices, found);
  }

  /** The state after the found-device receiver has handled each device
      of `found`, in order. */
  function FoundRun(s: State, found: seq<Device>): State
  {
    if found == [] then s else OnDeviceFound(FoundRun(s, found[..|found| - 1]), found[|found| - 1])
  }
}
