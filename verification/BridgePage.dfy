/**
  The page side of the bridge: `SharedWorkerSocketImplementation`.

  Application listeners run synchronously. Wherever the source calls listeners
  and has work left afterwards, that work is a frame on `frames` (innermost
  first) and `Resume` carries it out; until then any application call may happen.
 */
module BridgePage {
  import opened Common
  import opened BridgeMessages

  /** One `emit` call: its position among all emissions and whether it carries a callback. */
  datatype Emission = Emission(id: nat, wantsAck: bool)

  /** Work that waits for the listeners of a failed post to return. */
  datatype Frame =
    | ConnectFailed
    | EmissionFailed(ackId: Option<AckId>)
    | Flush(generation: nat, rest: seq<Emission>)

  /** The acknowledgement function handed to the listeners of one server event. */
  datatype Reference = Reference(generation: nat, ackId: AckId, event: nat)

  /** A server event shown to listeners, with the generation and the latest CONNECT at that moment. */
  datatype Dispatched = Dispatched(event: nat, generation: nat, request: nat)

  /** One run of an application callback with the payload it received. */
  datatype Ran = Ran(callback: nat, payload: Payload)

  datatype State = State(
    connected: bool,
    connecting: bool,
    disconnecting: bool,
    disconnectAfterConnect: bool,
    requestSequence: nat,
    ackSequence: nat,
    request: Option<nat>,
    generation: Option<nat>,
    outgoing: seq<Emission>,
    pendingClientAcks: map<AckId, nat>,
    references: seq<Reference>,
    pendingServerAcks: set<nat>,
    frames: seq<Frame>,
    posted: seq<PageMessage>,
    // History that the code never reads.
    emissions: nat,
    sent: seq<nat>,
    dropped: seq<nat>,
    issued: map<AckId, nat>,
    answers: map<nat, Payload>,
    ran: seq<Ran>,
    dispatched: seq<Dispatched>)

  const INITIAL := State(
    false, false, false, false, 0, 0, None, None, [], map[], [], {}, [], [],
    0, [], [], map[], map[], [], [])

  function ReleaseAcknowledgements(p: State): State {
    p.(pendingClientAcks := map[], pendingServerAcks := {})
  }

  function ReleaseGeneration(p: State): State {
    ReleaseAcknowledgements(p.(connected := false, generation := None))
  }

  /** The state in which `connect` posts its request. */
  function Requesting(p: State): State {
    var request := p.requestSequence + 1;
    ReleaseGeneration(p).(
      disconnectAfterConnect := false,
      disconnecting := false,
      connecting := true,
      requestSequence := request,
      request := Some(request))
  }

  /** `cloned` says whether `url` and `auth` pass validation and structured clone. */
  function ConnectCall(p: State, cloned: bool): State {
    if p.connected && !p.disconnecting then p
    else
      var q := Requesting(p);
      if cloned then q.(posted := q.posted + [Connect(q.requestSequence)])
      else q.(frames := [ConnectFailed] + q.frames)
  }

  function DisconnectCall(p: State): State {
    if p.disconnecting || (!p.connected && !p.connecting) then p
    else if !p.connected || p.generation == None || p.request == None then
      p.(disconnectAfterConnect := true)
    else
      var q := ReleaseAcknowledgements(p.(disconnecting := true, connected := false));
      q.(posted := q.posted + [Disconnect(p.request.value, p.generation.value)])
  }

  function ReceiveError(p: State): State {
    p.(connecting := false, generation := None, connected := false)
  }

  function NextAckId(p: State, e: Emission, generation: nat): Option<AckId> {
    if e.wantsAck then Some(ClientAckId(generation, p.ackSequence + 1)) else None
  }

  /** `cloned` says whether the arguments pass validation and structured clone. */
  function PostEmission(p: State, e: Emission, generation: nat, cloned: bool): State {
    var ackId := NextAckId(p, e, generation);
    var q := if ackId == None then p
             else p.(ackSequence := p.ackSequence + 1,
                     pendingClientAcks := p.pendingClientAcks[ackId.value := e.id],
                     issued := p.issued[ackId.value := e.id]);
    if cloned then
      q.(posted := q.posted + [ClientEvent(generation, e.id, ackId)], sent := q.sent + [e.id])
    else
      q.(frames := [EmissionFailed(ackId)] + q.frames, dropped := q.dropped + [e.id])
  }

  function EmitCall(p: State, wantsAck: bool, cloned: bool): State {
    var e := Emission(p.emissions, wantsAck);
    var q := p.(emissions := p.emissions + 1);
    if !q.connected || q.generation == None || q.disconnecting then q.(outgoing := q.outgoing + [e])
    else PostEmission(q, e, q.generation.value, cloned)
  }

  predicate MayFlush(p: State, generation: nat) {
    p.connected && p.generation == Some(generation) && !p.disconnecting
  }

  /**
    The loop of `flushOutgoing` until it ends or until the `failing`-th post from
    here fails, which hands control to the `bridge_error` listeners.
   */
  function FlushLoop(p: State, generation: nat, rest: seq<Emission>, failing: nat): State
    decreases |rest|
  {
    if rest == [] then p
    else if !MayFlush(p, generation) then p.(outgoing := rest + p.outgoing)
    else if failing == 0 then
      PostEmission(p.(frames := [Flush(generation, rest[1..])] + p.frames), rest[0], generation, false)
    else
      FlushLoop(PostEmission(p, rest[0], generation, true), generation, rest[1..], failing - 1)
  }

  function FlushOutgoing(p: State, failing: nat): State {
    match p.generation
    case None => p
    case Some(g) => FlushLoop(p.(outgoing := []), g, p.outgoing, failing)
  }

  function Opened(p: State, generation: nat): State {
    p.(generation := Some(generation), connected := true, connecting := false, ackSequence := 0)
  }

  function ReceiveConnected(p: State, request: nat, generation: nat, failing: nat): State {
    if Some(request) != p.request || !p.connecting then p
    else
      var q := Opened(p, generation);
      if q.disconnectAfterConnect then DisconnectCall(q.(disconnectAfterConnect := false))
      else FlushOutgoing(q, failing)
  }

  function ReceiveServerEvent(p: State, generation: nat, event: nat, ackId: Option<AckId>): State {
    var r := |p.references|;
    var q := if ackId == None then p
             else p.(references := p.references + [Reference(generation, ackId.value, event)],
                     pendingServerAcks := p.pendingServerAcks + {r});
    q.(dispatched := q.dispatched + [Dispatched(event, generation, q.requestSequence)])
  }

  function ReceiveAcknowledgement(p: State, ackId: AckId, payload: Payload): State {
    if ackId !in p.pendingClientAcks then p
    else p.(pendingClientAcks := p.pendingClientAcks - {ackId},
            ran := p.ran + [Ran(p.pendingClientAcks[ackId], payload)])
  }

  function ReceiveDisconnected(p: State): State {
    ReleaseGeneration(p.(connecting := false, disconnecting := false))
  }

  function Receive(p: State, m: HostMessage, failing: nat): State {
    match m
    case BridgeError(_) => p
    case Connected(r, g) => ReceiveConnected(p, r, g, failing)
    case ConnectError(r, _) => if Some(r) != p.request || !p.connecting then p else ReceiveError(p)
    case ServerEvent(g, event, ackId) =>
      if Some(g) == p.generation && p.connected && !p.disconnecting
      then ReceiveServerEvent(p, g, event, ackId) else p
    case AckClient(g, ackId, payload) =>
      if Some(g) == p.generation && p.connected && !p.disconnecting
      then ReceiveAcknowledgement(p, ackId, payload) else p
    case Disconnected(r, g) =>
      if Some(g) == p.generation && Some(r) == p.request then ReceiveDisconnected(p) else p
  }

  /** A listener calls the acknowledgement function of reference `r`. */
  function AcknowledgeCall(p: State, r: nat, payload: Payload, cloned: bool): State
    requires r < |p.references|
  {
    if r !in p.pendingServerAcks then p
    else
      var reference := p.references[r];
      var q := p.(pendingServerAcks := p.pendingServerAcks - {r}, answers := p.answers[r := payload]);
      if !q.connected || q.disconnecting || q.generation != Some(reference.generation) || !cloned then q
      else q.(posted := q.posted + [AckServer(reference.generation, reference.ackId, payload)])
  }

  /** The listeners on top of the call stack return. */
  function Resume(p: State, failing: nat): State {
    if p.frames == [] then p
    else
      var q := p.(frames := p.frames[1..]);
      match p.frames[0]
      case ConnectFailed => q.(connecting := false, request := None)
      case EmissionFailed(None) => q
      case EmissionFailed(Some(ackId)) => q.(pendingClientAcks := q.pendingClientAcks - {ackId})
      case Flush(g, rest) => FlushLoop(q, g, rest, failing)
  }
}
