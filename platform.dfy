/** The Android platform as the controller sees it. Everything the
    controller asks of the platform is an input here (permissions, the
    adapter and its bond store, the outcome of each socket call), and
    everything it does to the platform is an entry in an append-only log
    of calls. */
module Platform {
  import opened Domain

  /** The service record both sides rendezvous on. */
  const ServiceName := "chat_service"
  const ServiceUuid := "8d7d98ff-96a8-415a-b107-d6d2ad2a531c"

  /** Identity of a socket handle that the platform hands out. */
  type SocketId = nat

  /** The local adapter at the time of a call: its advertised name, the
      bonded devices in the order the bond store lists them, and whether
      a request to start discovery is accepted. */
  datatype Adapter = Adapter(name: Option<string>, bonded: seq<Device>, discoveryStarts: bool)

  /** The platform state an operation observes: the two runtime
      permissions and the adapter, absent when the device has no
      Bluetooth support. */
  datatype Env = Env(scanGranted: bool, connectGranted: bool, adapter: Option<Adapter>)

  /** A call the controller makes into the platform. */
  datatype Call =
    | RegisterFoundReceiver
    | UnregisterFoundReceiver
    | RegisterStateReceiver
    | UnregisterStateReceiver
    | StartDiscovery
    | CancelDiscovery
    | Listen(serviceName: string, uuid: string, server: SocketId)
    | Accept(server: SocketId)
    | CreateSocket(address: string, uuid: string, socket: SocketId)
    | Connect(socket: SocketId)
    | Close(socket: SocketId)
    | Write(socket: SocketId, message: Message)

  /** What the transfer service reads from one accepted or connected
      socket. NotConnected: the socket reports it is not connected and
      the listener ends at once. Streams: the messages read, in order;
      the listener reads until a read fails, so the stream always ends
      with a transfer failure. */
  datatype Session = NotConnected | Streams(incoming: seq<Message>)

  /** The result of opening the listening socket. */
  datatype ListenOutcome = ListenFailed | Listening(server: SocketId)

  /** The result of one accept call on the listening socket. */
  datatype AcceptOutcome =
    | AcceptFailed
    | Accepted(socket: SocketId, remote: Device, session: Session)

  /** Inputs of one server flow: the listen outcome, then one entry per
      iteration of the accept loop that the collector lets run; when the
      entries are used up the collector cancels the flow. */
  datatype ServerScript = ServerScript(listen: ListenOutcome, accepts: seq<AcceptOutcome>)

  /** The result of creating the outgoing socket. */
  datatype CreateOutcome = CreateFailed | Created(socket: SocketId)

  /** The result of the blocking connect call. */
  datatype ConnectOutcome = ConnectFailed | Connected(session: Session)

  /** Inputs of one client flow: the name the platform knows for the
      remote address, and the outcomes of socket creation and connect. */
  datatype ConnectScript = ConnectScript(remoteName: Option<string>, create: CreateOutcome, connect: ConnectOutcome)

  /** The exceptions that escape a flow to its collector. */
  datatype Failure = SecurityDenied | ListenIOFailure | CreateIOFailure | TransferFailed

  /** How a flow ends. */
  datatype Termination = Completed | Cancelled | Threw(failure: Failure)
}
