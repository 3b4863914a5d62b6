/** Basic value types shared by the tunnel broker model. */
module Types {

  /** An unsigned 16-bit integer: a TCP port number. */
  type u16 = x: int | 0 <= x < 0x1_0000

  /** A 128-bit connection identifier (a UUID). */
  type Uuid = x: int | 0 <= x < 0x1_0000_0000_0000_0000_0000_0000_0000_0000

  /** A peer's network address: its IP address (as a number) and its port. */
  datatype SocketAddr = SocketAddr(ip: nat, port: u16)

  /** An accepted visitor TCP stream, known only by an opaque token. */
  type Sock = nat

  /** The handle of a spawned listener task, used to abort it. */
  type Handle = nat

  datatype Option<+T> = None | Some(value: T)

  datatype Result<+T, +E> = Ok(value: T) | Err(error: E)
}
