# Bluetooth chat controller — a Dafny model

This project models the bookkeeping state machine of `AndroidBluetoothController`, the
connection manager of an Android Bluetooth chat application. The controller keeps:

- the scanned-device list;
- the paired-device list;
- the `isConnected` flag;
- the error messages it emits;
- the two socket references, `currentServerSocket` and `currentClientSocket`;
- the current `dataTransferService`.

It changes that state through:

- the found-device receiver and the connection-state (bond) receiver;
- `startDiscovery` and `stopDiscovery`;
- `updatePairedDevices`;
- `trySendMessage`;
- `closeConnection` and `release`;
- two flows of `ConnectionResult` events, `startBluetoothServer` and `connectToDevice`.

Layout:

- `domain.dfy` (module `Domain`): devices, chat messages and the three-variant `ConnectionResult`.
- `platform.dfy` (module `Platform`): everything the controller asks of Android, as inputs. This covers permissions, the adapter and its bond store, and the outcome of each socket call. Everything the controller does to Android is an entry in an append-only `calls` log: receiver registration, discovery start and cancel, listen, accept, socket creation, connect, close and write. Ordering claims such as "discovery is cancelled before connecting" and "no socket is opened before the permission check fails" are statements about that log.
- `discovery.dfy` (module `Discovery`): the found-device update of the scanned list. It is pure, with its fold over a run of notifications.
- `controller_state.dfy` (module `ControllerState`): the controller's fields as one `State` value. Each simple operation is a function from the state before to the state after.
- `connection_flows.dfy` (module `ConnectionFlows`): the two flows as functions. Each returns the final state, the emitted events in order, and how the flow ended (`Completed`, `Cancelled`, or `Threw(failure)`). It also holds lemmas about whole scenarios.
- `controller.dfy` (module `Controller`): the class `AndroidBluetoothController` with the source's fields. Its methods update those fields in place. Each method is proved to leave `Snapshot()` equal to the matching function. The server's `while (shouldLoop)` accept loop and the relay of incoming messages are loops with invariants. The class invariant `Valid()` says the scanned list has no duplicates.

Flow inputs:

- A server flow takes the listen outcome and one accept outcome per loop iteration. When these run out, the collector is taken to cancel the flow.
- A client flow takes the name the platform reports for the address, the socket-creation outcome and the connect outcome.
- A connected session is either `NotConnected`, where the listener returns at once, or `Streams(messages)`. The listener reads in `while (true)`, so a streaming session always ends with a read failure (`TransferFailedException`).

Behaviour of the code worth knowing:

- De-duplication of scanned devices uses equality of the whole device value (name and address), not the address alone.
- `startDiscovery` never clears the scanned list.
- Without the CONNECT permission, both flows throw a `SecurityException` to their collector. They are not silent no-ops. The teardown still runs.
- The client flow also emits `Error("Connection was interrupted")` when an established connection's read fails. That includes a normal disconnect by the peer.
- In the server flow a read failure escapes to the collector as `TransferFailed`. No `Error` event is emitted.
- `closeConnection` does not clear `dataTransferService`. After a connection ends, `trySendMessage` still writes to the closed socket and returns the message (lemma `SendAfterConnectionEnds`).
- The server's accept loop continues after a session whose socket is not connected. The next accept is then made on the listening socket that the first accept closed, so it fails and the flow completes (lemma `ServerSessionNotConnected`).
- With no adapter, the accept loop never ends on its own (lemma `ServerWithoutAdapterNeverEnds`).
- A socket accepted for a session that is not connected is never closed: the failed accept that follows overwrites the client reference with null before the teardown (lemma `ServerLeavesNotConnectedSocketOpen`).
- In the client flow, socket creation is outside the `try`. Its IOException escapes to the collector, and no `Error` event is emitted (`ConnectBody`).

## Model

| member | source | states |
|---|---|---|
| `Discovery.AddFound` | app/src/main/kotlin/bluetoothchat/data/chat/AndroidBluetoothController.kt:66-73 | The old list is a prefix of the new one, which is at most one longer and holds exactly the old devices plus the found one. The list is unchanged iff the device was already listed. A duplicate-free list stays duplicate-free. |
| `Discovery.ScanAllExtends` | app/src/main/kotlin/bluetoothchat/data/chat/AndroidBluetoothController.kt:66-73 | Handling a run of notifications keeps the earlier list as a prefix and keeps it duplicate-free. Afterwards the list holds exactly the earlier devices and the notified ones. |
| `Discovery.ScanAllIsFirstSeen` | app/src/main/kotlin/bluetoothchat/data/chat/AndroidBluetoothController.kt:66-73 | Starting from an empty list, the scanned list equals the reference "first occurrences in notification order", and it has no duplicates. The first-seen entry is the one kept. |
| `ControllerState.OnDeviceFound` | app/src/main/kotlin/bluetoothchat/data/chat/AndroidBluetoothController.kt:61-74 | The scanned list grows only at the end and contains the device. The state is unchanged iff the device was already listed. No other field changes. |
| `ControllerState.OnDeviceFoundRun` | app/src/main/kotlin/bluetoothchat/data/chat/AndroidBluetoothController.kt:61-74 | After any run of found-device notifications, the scanned list is the fold of the update and is still duplicate-free. Every other field is untouched. |
| `ControllerState.OnConnectionStateChanged` | app/src/main/kotlin/bluetoothchat/data/chat/AndroidBluetoothController.kt:76-85 | For a bonded device, `isConnected` takes the reported value and no error is emitted. Otherwise `isConnected` is unchanged and exactly one "Can't connect to a non-paired device" is emitted. Nothing else changes. |
| `ControllerState.UpdatePairedDevices` | app/src/main/kotlin/bluetoothchat/data/chat/AndroidBluetoothController.kt:239-251 | With the CONNECT permission and an adapter, the paired list is replaced by the bonded devices. Otherwise it is unchanged. No other field changes. |
| `ControllerState.Initial` | app/src/main/kotlin/bluetoothchat/data/chat/AndroidBluetoothController.kt:49-101 | A new controller has an empty scanned list, is not connected and has no errors, sockets or service. Its paired list is read once, and the connection-state receiver is the only registration made. |
| `ControllerState.StartDiscovery` | app/src/main/kotlin/bluetoothchat/data/chat/AndroidBluetoothController.kt:103-119 | Without SCAN, nothing changes. With SCAN, the receiver is registered and the paired list is refreshed. Discovery is requested when an adapter exists. "Starting discovery failed!" is emitted exactly when there is no adapter or it refuses. The scanned list and the sockets are untouched. |
| `ControllerState.StopDiscovery` | app/src/main/kotlin/bluetoothchat/data/chat/AndroidBluetoothController.kt:121-127 | With SCAN and an adapter, exactly one cancel-discovery call is made. Otherwise the state is unchanged. |
| `ControllerState.CloseConnection` | app/src/main/kotlin/bluetoothchat/data/chat/AndroidBluetoothController.kt:226-231 | Both socket references are null afterwards. The calls added are exactly a close of the client socket, if referenced, then a close of the listening socket, if referenced: no stray close. With no socket referenced the state is unchanged. Service, lists, flag and errors are kept. |
| `ControllerState.CloseConnectionIdempotent` | app/src/main/kotlin/bluetoothchat/data/chat/AndroidBluetoothController.kt:226-231 | Calling closeConnection twice gives the same state as calling it once. |
| `ControllerState.Release` | app/src/main/kotlin/bluetoothchat/data/chat/AndroidBluetoothController.kt:233-237 | Both receivers are unregistered, in that order, then the connection is closed: the calls added are the two unregistrations followed by the close of each referenced socket, and both socket references are null. Nothing else changes. |
| `ControllerState.Teardown` | app/src/main/kotlin/bluetoothchat/data/chat/AndroidBluetoothController.kt:161-164 | Completing a flow closes the referenced client socket and then the referenced listening socket, as the only calls added, and leaves both references null. The paired list is refreshed as updatePairedDevices would; no other field changes. |
| `ControllerState.SenderName` | app/src/main/kotlin/bluetoothchat/data/chat/AndroidBluetoothController.kt:217 | The sender label is the adapter's name when there is an adapter with a name, and "Unknown" otherwise. |
| `ControllerState.TrySendMessage` | app/src/main/kotlin/bluetoothchat/data/chat/AndroidBluetoothController.kt:209-224 | Returns None with no change iff CONNECT is denied or no service exists. Otherwise it makes exactly one write to the service's socket. It then returns a local message with the given text and the adapter's name or "Unknown". |
| `ConnectionFlows.ServerStep` | app/src/main/kotlin/bluetoothchat/data/chat/AndroidBluetoothController.kt:141-159 | One accept iteration emits a ConnectionEstablished first and never an Error. With no listening socket it only clears the client reference and goes on. An accept that fails, as every accept on an already closed listening socket does, logs the accept, emits ConnectionEstablished(None), clears the client reference and completes the flow. An accepted socket logs the accept and the listening socket's close, becomes the client reference and the transfer service, and emits ConnectionEstablished(remote). A streaming session then relays every message in order and ends the flow with TransferFailed; a not-connected session lets the loop go on with the listening socket closed. |
| `ConnectionFlows.ServerLoop` | app/src/main/kotlin/bluetoothchat/data/chat/AndroidBluetoothController.kt:139-160 | The accept loop emits no Error event. It begins with ConnectionEstablished, and ends as Completed, Cancelled or TransferFailed. With no listening socket, it emits one ConnectionEstablished(None) per iteration and is only ended by cancellation. |
| `ConnectionFlows.ServerBody` | app/src/main/kotlin/bluetoothchat/data/chat/AndroidBluetoothController.kt:129-160 | Before teardown: a denied CONNECT permission throws SecurityDenied with no events and no change. With an adapter, a failed listen throws the IOException with no events and no change; a successful listen logs the listen with the service name and UUID first and holds the listening socket. With no adapter the listening reference is null. Only the two socket references, the service and the call log change, the log only grows, and no Error event is emitted. |
| `ConnectionFlows.StartBluetoothServer` | app/src/main/kotlin/bluetoothchat/data/chat/AndroidBluetoothController.kt:129-164 | On every path both socket references end null and the paired list is refreshed. Lists, flag and errors are otherwise untouched, and no Error event is emitted. A denied permission throws SecurityDenied with no events, opens no socket, and still runs the teardown. |
| `ConnectionFlows.ConnectBody` | app/src/main/kotlin/bluetoothchat/data/chat/AndroidBluetoothController.kt:166-203 | Before teardown, the client flow changes only the client reference, the service and the call log, and any Error is the last event and is "Connection was interrupted". A denied permission changes nothing. No adapter: no events, no calls, null client reference. A socket that cannot be created throws CreateIOFailure with no events and no change. A failed connect emits only the Error, closes the socket and clears the reference; a not-connected session emits only ConnectionEstablished, completes and keeps socket and service; a streaming session emits ConnectionEstablished, the messages in order and the Error, and closes the socket. Each created-socket case states its exact call log. |
| `ConnectionFlows.ConnectToDevice` | app/src/main/kotlin/bluetoothchat/data/chat/AndroidBluetoothController.kt:166-207 | On every path both socket references end null and the paired list is refreshed. At most one Error is emitted, always last and always "Connection was interrupted". A denied permission throws with no events and opens no socket. |
| `ConnectionFlows.ServerAcceptFailure` | app/src/main/kotlin/bluetoothchat/data/chat/AndroidBluetoothController.kt:141-149 | A first accept that fails emits exactly ConnectionEstablished(None), completes normally, and makes only the listen, the accept and the teardown's closes. |
| `ConnectionFlows.ServerRelaysSession` | app/src/main/kotlin/bluetoothchat/data/chat/AndroidBluetoothController.kt:141-164 | An accepted streaming session emits ConnectionEstablished(remote) and then every incoming message in order. It ends with TransferFailed and no Error. The listening socket is closed on accept, and the teardown closes both sockets. The service stays set. |
| `ConnectionFlows.ServerSessionNotConnected` | app/src/main/kotlin/bluetoothchat/data/chat/AndroidBluetoothController.kt:139-164 | An accepted socket that is not connected emits ConnectionEstablished(remote); the loop goes round, the accept on the closed listening socket fails, ConnectionEstablished(None) is emitted and the flow completes. The calls are listen, accept, close of the listener, the failed accept, and the teardown's close. The service stays set. |
| `ConnectionFlows.ServerLeavesNotConnectedSocketOpen` | app/src/main/kotlin/bluetoothchat/data/chat/AndroidBluetoothController.kt:139-164 | The socket accepted for a session that is not connected is never closed by the flow: the failed accept that follows sets the client reference to null before the teardown's closeConnection. |
| `ConnectionFlows.ServerWithoutAdapterNeverEnds` | app/src/main/kotlin/bluetoothchat/data/chat/AndroidBluetoothController.kt:134-160 | With CONNECT granted and no adapter, the server flow emits ConnectionEstablished(None) on every iteration and only ends by cancellation. |
| `ConnectionFlows.Interrupt` | app/src/main/kotlin/bluetoothchat/data/chat/AndroidBluetoothController.kt:195-197 | The catch block of the client flow closes the created socket, as one more close call, and clears the client reference. Nothing else changes. |
| `ConnectionFlows.ConnectRelaysSession` | app/src/main/kotlin/bluetoothchat/data/chat/AndroidBluetoothController.kt:173-207 | A successful connection emits ConnectionEstablished for the address, then every incoming message in order, then exactly one Error("Connection was interrupted"). The calls are: create the socket, cancel discovery, connect, close, then the teardown. |
| `ConnectionFlows.ConnectFailure` | app/src/main/kotlin/bluetoothchat/data/chat/AndroidBluetoothController.kt:173-207 | A failed connect emits exactly one Error("Connection was interrupted"). The created socket is closed after discovery was cancelled, and the service is left as it was. |
| `ConnectionFlows.ConnectWithoutAdapter` | app/src/main/kotlin/bluetoothchat/data/chat/AndroidBluetoothController.kt:173-182 | With no adapter, the client flow emits nothing, completes, and makes no call other than the teardown's close of a still-referenced listening socket. |
| `ConnectionFlows.ConnectClosesCreatedSocket` | app/src/main/kotlin/bluetoothchat/data/chat/AndroidBluetoothController.kt:173-207 | Once a socket has been created, it is closed by the time the client flow has completed, whatever the connect call and the session do: by the catch block or by the teardown. |
| `ConnectionFlows.SendAfterConnectionEnds` | app/src/main/kotlin/bluetoothchat/data/chat/AndroidBluetoothController.kt:209-231 | After a client flow that connected, the socket has been closed but trySendMessage still writes to it and returns the message as sent. |
| `Controller.AndroidBluetoothController.constructor` | app/src/main/kotlin/bluetoothchat/data/chat/AndroidBluetoothController.kt:49-101 | The new object's fields equal `Initial(env)`, and its scanned list is duplicate-free. |
| `Controller.AndroidBluetoothController.OnDeviceFound` | app/src/main/kotlin/bluetoothchat/data/chat/AndroidBluetoothController.kt:61-74 | The fields are updated in place exactly as `OnDeviceFound` says, and the scanned list stays duplicate-free. |
| `Controller.AndroidBluetoothController.OnConnectionStateChanged` | app/src/main/kotlin/bluetoothchat/data/chat/AndroidBluetoothController.kt:76-85 | The fields are updated in place exactly as `OnConnectionStateChanged` says. |
| `Controller.AndroidBluetoothController.StartDiscovery` | app/src/main/kotlin/bluetoothchat/data/chat/AndroidBluetoothController.kt:103-119 | The fields are updated in place exactly as `StartDiscovery` says. |
| `Controller.AndroidBluetoothController.StopDiscovery` | app/src/main/kotlin/bluetoothchat/data/chat/AndroidBluetoothController.kt:121-127 | The fields are updated in place exactly as `StopDiscovery` says. |
| `Controller.AndroidBluetoothController.StartBluetoothServer` | app/src/main/kotlin/bluetoothchat/data/chat/AndroidBluetoothController.kt:129-164 | The returned events, the termination and the new fields are those of `ConnectionFlows.StartBluetoothServer`. The `while (shouldLoop)` loop is proved by invariants against `ServerLoop`. |
| `Controller.AndroidBluetoothController.AcceptIteration` | app/src/main/kotlin/bluetoothchat/data/chat/AndroidBluetoothController.kt:141-159 | One pass of the accept loop body updates the fields and returns the events, the stop signal and whether the listening socket is closed, as `ServerStep` says. |
| `Controller.AndroidBluetoothController.RelayIncoming` | app/src/main/kotlin/bluetoothchat/data/chat/AndroidBluetoothController.kt:154-158 | Relaying the incoming messages appends one TransferSucceeded per message, in order, after the events already emitted. |
| `Controller.AndroidBluetoothController.ConnectToDevice` | app/src/main/kotlin/bluetoothchat/data/chat/AndroidBluetoothController.kt:166-207 | The returned events, the termination and the new fields are those of `ConnectionFlows.ConnectToDevice`. |
| `Controller.AndroidBluetoothController.TrySendMessage` | app/src/main/kotlin/bluetoothchat/data/chat/AndroidBluetoothController.kt:209-224 | The returned message and the new fields are those of `ControllerState.TrySendMessage`. |
| `Controller.AndroidBluetoothController.CloseConnection` | app/src/main/kotlin/bluetoothchat/data/chat/AndroidBluetoothController.kt:226-231 | The fields are updated in place exactly as `CloseConnection` says. |
| `Controller.AndroidBluetoothController.Release` | app/src/main/kotlin/bluetoothchat/data/chat/AndroidBluetoothController.kt:233-237 | The fields are updated in place exactly as `Release` says. |
| `Controller.AndroidBluetoothController.UpdatePairedDevices` | app/src/main/kotlin/bluetoothchat/data/chat/AndroidBluetoothController.kt:239-251 | The fields are updated in place exactly as `UpdatePairedDevices` says. |

## Left out

- BluetoothDataTransferService.kt: the blocking reads and writes are not modelled, nor is the 1024-byte read buffer or the decoding through `decodeToString` and `toBluetoothMessage`. A session is an input: the decoded messages, in order, followed by a read failure, or "not connected".
- Controller.AndroidBluetoothController.TrySendMessage: the write's boolean result is not an input. `trySendMessage` discards it, so the model records the write call only.
- `errors` records the error messages the controller attempts to emit. The errors flow is a `MutableSharedFlow` with no replay and no extra buffer, so `tryEmit` fails whenever a collector is subscribed, and those messages are most likely never delivered. Delivery is not modelled, nor is the coroutine launched around each emission.
- Each flow is one atomic step. No other operation can interleave with a running flow: not `trySendMessage`, `closeConnection`, `release` or a receiver. Stopping a blocked accept or read by closing its socket from outside appears only as a failed accept or read outcome. Sending during a live session can only be expressed after the flow has ended.
- Coroutine machinery is not modelled: `flowOn` and dispatchers. Collector cancellation is modelled only at the head of the server's accept loop, as the end of the accept inputs. Cancellation in the middle of a session or of the client flow is not modelled.
- Android calls are uninterpreted:
  - `checkSelfPermission` becomes the two permission booleans;
  - `bondedDevices` becomes a sequence of devices;
  - `toBluetoothDeviceDomain` is the identity on devices;
  - the bond check in the connection-state receiver compares platform devices, whose equality is by address; the model compares the whole `Device` value there instead;
  - `Log` and `printStackTrace` are dropped.
- Platform exceptions not named in the controller are not modelled. These are `close()` on either socket throwing an IOException, `getRemoteDevice` rejecting a malformed address, a `SecurityException` from `bondedDevices` inside the connection-state receiver, and the platform's reaction to registering a receiver twice or unregistering one that was never registered. The model logs the calls only. Every close is taken to succeed, so the guarantees that the teardown runs in full on every path assume it. A failing close would skip the rest of `closeConnection` and the paired-device refresh, and a failing close in the client flow's catch block would skip the `Error` event.
- The UI and wiring are not part of this model: ChatScreen.kt, MainActivity.kt, BluetoothUiState.kt and the view model that collects the flows.
