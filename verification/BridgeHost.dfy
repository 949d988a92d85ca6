/**
  The worker side of the bridge: the closure built by `attachSharedWorker`.
  A connection record is found by its generation, since every accepted CONNECT
  gets a fresh one. `finish` is the only place where `active` gives up a record,
  and listeners of finished records stay attached for ever.
 */
module BridgeHost {
  import opened Common
  import opened BridgeMessages

  /** The record's identity and life; `announced` is history: CONNECTED was posted. */
  datatype Connection = Connection(request: nat, finished: bool, announced: bool)

  /** The same record's acknowledgement fields. */
  datatype Acks = Acks(next: nat, server: map<AckId, nat>, client: set<nat>)

  const NO_ACKS := Acks(0, map[], {})

  /** The acknowledgement function given to the server for one client event. */
  datatype Reference = Reference(generation: nat, ackId: AckId, emission: nat)

  datatype Ran = Ran(callback: nat, payload: Payload)

  datatype ProtocolError = NoActiveConnection | UnknownGeneration | NotTheOwner

  datatype State = State(
    active: Option<nat>,
    nextGeneration: nat,
    closed: bool,
    connections: map<nat, Connection>,
    acks: map<nat, Acks>,
    references: seq<Reference>,
    posted: seq<HostMessage>,
    // History that the code never reads.
    requests: seq<nat>,
    events: nat,
    issued: map<AckId, nat>,
    answers: map<nat, Payload>,
    ran: seq<Ran>,
    received: seq<nat>,
    silenced: set<nat>,
    errors: seq<ProtocolError>)

  const INITIAL := State(
    None, 0, false, map[], map[], [], [], [], 0, map[], map[], [], [], {}, [])

  function Post(h: State, m: HostMessage): State {
    h.(posted := h.posted + [m])
  }

  /** A message that cannot be cloned is replaced by a BRIDGE_ERROR, if that one can be posted. */
  function PostFailure(h: State, g: nat, reported: bool): State {
    if reported then Post(h, BridgeError(Some(g))) else h
  }

  /** A record was created for generation `g`. */
  predicate Known(h: State, g: nat) {
    g in h.connections && g in h.acks
  }

  /** `Live(h, g)` is the guard `!state.finished && active === state`. */
  predicate Live(h: State, g: nat) {
    Known(h, g) && !h.connections[g].finished && h.active == Some(g)
  }

  function Finish(h: State, g: nat, notify: bool): State
    requires Known(h, g)
  {
    var c := h.connections[g];
    if c.finished then h
    else
      var q := h.(
        connections := h.connections[g := c.(finished := true)],
        acks := h.acks[g := h.acks[g].(server := map[], client := {})],
        active := if h.active == Some(g) then None else h.active,
        silenced := if !notify && c.announced then h.silenced + {g} else h.silenced);
      if notify then Post(q, Disconnected(c.request, g)) else q
  }

  /** `accepted` is false when `server.connect` throws. */
  function Open(h: State, request: nat, accepted: bool): State {
    var g := h.nextGeneration + 1;
    var n := h.(nextGeneration := g, requests := h.requests + [request]);
    if !accepted then Post(n, ConnectError(request, g))
    else n.(connections := n.connections[g := Connection(request, false, false)],
            acks := n.acks[g := NO_ACKS],
            active := Some(g))
  }

  function ReceiveConnect(h: State, request: nat, accepted: bool): State {
    Open(if h.active.Some? && Known(h, h.active.value) then Finish(h, h.active.value, true) else h, request, accepted)
  }

  /** The connection's own client socket reports `connect`. */
  function SocketConnect(h: State, g: nat, cloned: bool, reported: bool): State
    requires Known(h, g)
  {
    if !Live(h, g) then h
    else if cloned then
      var c := h.connections[g];
      Post(h.(connections := h.connections[g := c.(announced := true)]), Connected(c.request, g))
    else Finish(PostFailure(h, g, reported), g, false)
  }

  function SocketConnectError(h: State, g: nat): State
    requires Known(h, g)
  {
    if !Live(h, g) then h
    else Finish(Post(h, ConnectError(h.connections[g].request, g)), g, false)
  }

  function SocketDisconnect(h: State, g: nat): State
    requires Known(h, g)
  {
    Finish(h, g, true)
  }

  /** The connection's own client socket reports an application event of the server. */
  function ForwardServerEvent(h: State, g: nat, wantsAck: bool, cloned: bool, reported: bool): State
    requires Known(h, g)
  {
    if !Live(h, g) then h
    else
      var event := h.events;
      var a := h.acks[g];
      var ackId := if wantsAck then Some(ServerAckId(g, a.next + 1)) else None;
      var q := h.(events := event + 1);
      if cloned then
        var d := if wantsAck
                 then a.(next := a.next + 1, server := a.server[ackId.value := event])
                 else a;
        Post(q.(acks := q.acks[g := d],
                issued := if wantsAck then q.issued[ackId.value := event] else q.issued),
             ServerEvent(g, event, ackId))
      else
        // The pending entry is set and deleted again; only the counter has moved.
        var d := if wantsAck then a.(next := a.next + 1) else a;
        PostFailure(q.(acks := q.acks[g := d]), g, reported)
  }

  /** `emitted` is false when the send throws, which releases the acknowledgement. */
  function HandleClientEvent(h: State, g: nat, emission: nat, ackId: Option<AckId>, emitted: bool): State
    requires Known(h, g)
  {
    var q := if emitted then h.(received := h.received + [emission]) else h;
    if ackId == None then q
    else
      var r := |q.references|;
      var a := q.acks[g];
      var d := if emitted then a.(client := a.client + {r}) else a;
      q.(references := q.references + [Reference(g, ackId.value, emission)],
         acks := q.acks[g := d])
  }

  /** The server calls the acknowledgement function of reference `r`. */
  function AnswerClientEvent(h: State, r: nat, payload: Payload, cloned: bool, reported: bool): State
    requires r < |h.references| && Known(h, h.references[r].generation)
  {
    var reference := h.references[r];
    var g := reference.generation;
    var a := h.acks[g];
    if r !in a.client then h
    else
      var q := h.(acks := h.acks[g := a.(client := a.client - {r})],
                  answers := h.answers[r := payload]);
      if !Live(q, g) then q
      else if cloned then Post(q, AckClient(g, reference.ackId, payload))
      else PostFailure(q, g, reported)
  }

  function HandleServerAck(h: State, g: nat, ackId: AckId, payload: Payload): State
    requires Known(h, g)
  {
    var a := h.acks[g];
    if ackId !in a.server then h
    else h.(acks := h.acks[g := a.(server := a.server - {ackId})],
            ran := h.ran + [Ran(a.server[ackId], payload)])
  }

  function ReportError(h: State, error: ProtocolError): State {
    Post(h.(errors := h.errors + [error]), BridgeError(None))
  }

  /** `accepted` concerns a CONNECT, `emitted` a CLIENT_EVENT. */
  function HandleMessage(h: State, m: PageMessage, accepted: bool, emitted: bool): State {
    if m.Connect? then ReceiveConnect(h, m.request, accepted)
    else if h.active == None then
      if m.generation <= h.nextGeneration then h else ReportError(h, NoActiveConnection)
    else
      var g := h.active.value;
      if m.generation < g then h
      else if m.generation > g then ReportError(h, UnknownGeneration)
      else if !Known(h, g) then h
      else if m.Disconnect? && m.request != h.connections[g].request then ReportError(h, NotTheOwner)
      else
        match m
        case ClientEvent(_, emission, ackId) => HandleClientEvent(h, g, emission, ackId, emitted)
        case AckServer(_, ackId, payload) => HandleServerAck(h, g, ackId, payload)
        case Disconnect(_, _) => Finish(h, g, true)
  }

  function CloseCall(h: State): State {
    if h.closed then h
    else
      var q := h.(closed := true);
      if q.active.Some? && Known(q, q.active.value) then Finish(q, q.active.value, true) else q
  }
}
