/** The logical messages of the control protocol, without their wire framing. */
module Protocol {
  import opened Types

  /** Messages a client sends to the server. */
  datatype ClientMessage =
    | Authenticate(credential: string)
    | Hello(requestedPort: u16)   // 0 asks for any port of the allowed range
    | Accept(id: Uuid)            // claims a pending visitor connection

  /** Messages the server sends to a client (the handshake's challenge is not modelled). */
  datatype ServerMessage =
    | Hello(assignedPort: u16)    // acknowledges the tunnel
    | Error(message: string)
    | Heartbeat
    | Connection(id: Uuid)

  /** What reading the first message of a control connection produced. */
  datatype Received =
    | RecvFailed                  // a transport, timeout or decoding error
    | Ended                       // the stream closed before any message
    | Message(msg: ClientMessage)
}
