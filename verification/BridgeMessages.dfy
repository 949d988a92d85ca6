/**
  The messages of the SharedWorker bridge. Request ids such as `connect:3` and
  acknowledgement ids such as `client:2:1` are templates over numbers, so the
  numbers stand for them. An event name with its arguments is opaque: a client
  emission and a server event are each named by the order in which the
  application made them.
 */
module BridgeMessages {
  import opened Common

  /** Arguments given to an acknowledgement; never inspected by the bridge. */
  type Payload = int

  datatype AckId =
    | ClientAckId(generation: nat, sequence: nat)
    | ServerAckId(generation: nat, sequence: nat)

  datatype PageMessage =
    | Connect(request: nat)
    | ClientEvent(generation: nat, emission: nat, clientAck: Option<AckId>)
    | AckServer(generation: nat, ackId: AckId, payload: Payload)
    | Disconnect(request: nat, generation: nat)

  datatype HostMessage =
    | Connected(request: nat, generation: nat)
    | ConnectError(request: nat, generation: nat)
    | ServerEvent(generation: nat, event: nat, serverAck: Option<AckId>)
    | AckClient(generation: nat, ackId: AckId, payload: Payload)
    | Disconnected(request: nat, generation: nat)
    | BridgeError(about: Option<nat>)

  /** The generation a host message is tagged with, if any. */
  function Tag(m: HostMessage): Option<nat> {
    match m
    case Connected(_, g) => Some(g)
    case ConnectError(_, g) => Some(g)
    case ServerEvent(g, _, _) => Some(g)
    case AckClient(g, _, _) => Some(g)
    case Disconnected(_, g) => Some(g)
    case BridgeError(about) => about
  }

  /** DISCONNECTED and CONNECT_ERROR end a generation. */
  predicate Terminal(m: HostMessage) {
    m.Disconnected? || m.ConnectError?
  }
}
