/** The values the chat controller hands to its callers: devices, chat
    messages and the events of a connection flow. */
module Domain {

  datatype Option<+T> = None | Some(value: T)

  /** A remote device as the controller reports it: an optional display
      name and the hardware address. Equality is structural, on both
      fields, as for the Kotlin data class the controller compares. */
  datatype Device = Device(name: Option<string>, address: string)

  /** One chat message; isFromLocalUser is true for a message composed on
      this device and false for one read from the peer. */
  datatype Message = Message(senderName: string, message: string, isFromLocalUser: bool)

  /** The three events a connection flow emits. */
  datatype ConnectionResult =
    | ConnectionEstablished(device: Option<Device>)
    | TransferSucceeded(message: Message)
    | Error(reason: string)
}
