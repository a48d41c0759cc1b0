/**
 * Shared vocabulary of the proxy: bytes, UDP endpoints, the sends a handler
 * performs, the two relay directions with their one-byte mirror tags, and the
 * errors that end a session.
 */
module Wire {

  /** One octet of a datagram or of a handshake frame. */
  type Byte = b: int | 0 <= b < 256

  type Bytes = seq<Byte>

  /** An IPv4 address in dotted text form, as the socket layer reports it. */
  type Address = string

  datatype Option<+T> = None | Some(value: T)

  /** A UDP destination `(host, port)`. */
  datatype Endpoint = Endpoint(host: Address, port: int)

  /** One message sent to an endpoint: a relay handler's `sendto(payload, to)`, or
      the handshake frame written to `(sumo_ip, init_port)`. */
  datatype Send = Send(to: Endpoint, payload: Bytes)

  /** The two logical directions of a relayed session. */
  datatype Direction = ClientToSumo | SumoToClient

  /** Why a session ends. Every one of them is fatal to the current session only. */
  datatype Error =
    | MalformedJson                // json.loads raised on the frame body
    | MissingKey(key: string)      // the handshake object lacks the port key
    | NotNumeric(key: string)      // the port value does not support integer arithmetic
    | NoInit                       // no handshake completed before the wait ran out
    | DeviceBusy                   // the device answered with c2d_port 0
    | BadPort                      // a negotiated port cannot be bound
    | NoComms(check: nat)          // the watchdog check at this event found no datagram since the previous one
    | EmptyDatagram                // data[0] on an empty datagram

  datatype Result<+T> = Ok(value: T) | Err(error: Error)

  /** '>' : the mirror tag for client-to-sumo traffic. */
  const ClientToSumoTag: Byte := 0x3E
  /** '<' : the mirror tag for sumo-to-client traffic. */
  const SumoToClientTag: Byte := 0x3C

  function TagOf(dir: Direction): (t: Byte)
    ensures t == ClientToSumoTag <==> dir == ClientToSumo
    ensures t == SumoToClientTag <==> dir == SumoToClient
  {
    match dir
    case ClientToSumo => ClientToSumoTag
    case SumoToClient => SumoToClientTag
  }

  /** The copy of a datagram sent to an observer: its direction tag, then the datagram. */
  function Mirror(dir: Direction, data: Bytes): (m: Bytes)
    ensures |m| == |data| + 1 && m[1..] == data
    ensures m[0] == TagOf(dir)
  {
    [TagOf(dir)] + data
  }
}
