/**
  Connection attempts, server sockets, Managers and the microtask queue.

  A run is a sequence of events: calls by application code, microtasks in FIFO order,
  and `Return`, which ends the innermost callback into application code. Work that the
  source does after such a callback is a frame on `stack`, innermost first; calls may
  happen at any moment, microtasks only when no frame is left. The indexes of all
  namespaces are one `Rooms.State`, whose room names carry their namespace.
 */
module Lifecycle {
  import opened Common
  import Rooms

  /** A rejection is told to its client unless its error cannot be encoded. */
  datatype Phase = Pending | Cancelled | Rejected(told: bool) | Established

  datatype Attempt = Attempt(
    client: nat,
    phase: Phase,
    server: Option<nat>,
    asked: bool,      // continuePair has asked for the auth payload
    completed: bool,  // the middleware chain has called done
    mute: bool,       // with an error whose data cannot be encoded
    // History.
    nested: bool,     // begun inside the client's own disconnect
    connected: bool)  // was established at some time

  datatype Client = Client(
    manager: nat,
    space: nat,
    connected: bool,
    id: Option<nat>,
    server: Option<nat>,
    attempt: Option<nat>)

  datatype Server = Server(client: nat, connected: bool, active: bool, torn: bool, closing: bool)

  datatype Task =
    | PairTask(attempt: nat)
    | DoneTask(attempt: nat, failed: bool)
    | ErrorTask(attempt: nat)
    | TeardownTask(server: nat)
    | MarkTask(server: nat)
    | CloseMarkTask(server: nat)

  datatype Frame =
    | AfterConnection(attempt: nat)
    | Flushing(attempt: nat)
    | Tail(client: nat)
    | Clean(server: nat, sync: bool)
    | CleanEnd(server: nat, sync: bool)
    | Ended(server: nat, sync: bool)
    | Group(order: seq<nat>, next: nat, initiator: nat)
    | Sending(server: nat, broadcast: bool, wasConnected: bool)
    | Broadcasting(order: seq<nat>)

  /**
    A packet on its way to the client of server socket `via`. Its guard is either that
    `via` still owns the client's delivery, or the guard of the pairing `captured`
    when it was sent.
   */
  datatype Packet = Packet(via: nat, owned: bool, captured: Option<nat>)

  /** What applications observe. */
  datatype Observation =
    | ServerConnection(attempt: nat)
    | ClientConnect(attempt: nat)
    | ClientError(attempt: nat)
    | ServerDisconnecting(server: nat, rooms: set<Rooms.Room>)
    | ServerDisconnect(server: nat, rooms: set<Rooms.Room>)
    | Dispatched(
        via: nat, current: Option<nat>, captured: Option<nat>,
        owned: bool,       // by its own guard, not the captured one
        drained: bool,     // by the adapter of the captured socket, in its removal hook
        superseded: bool,
        overtaken: bool)

  datatype State = State(
    clients: seq<Client>,
    attempts: seq<Attempt>,
    servers: seq<Server>,
    pending: set<nat>,
    connected: set<nat>,
    closed: set<nat>,
    rooms: Rooms.State,
    tasks: seq<Task>,
    stack: seq<Frame>,
    packets: seq<Packet>,
    log: seq<Observation>)

  predicate IsPending(s: State, a: nat) {
    && a < |s.attempts| && s.attempts[a].client < |s.clients|
    && s.clients[s.attempts[a].client].attempt == Some(a) && s.attempts[a].phase == Pending
  }

  predicate IsConnected(s: State, a: nat) {
    && a < |s.attempts| && s.attempts[a].client < |s.clients|
    && var c := s.clients[s.attempts[a].client];
       c.attempt == Some(a) && s.attempts[a].phase == Established && c.connected && c.server == s.attempts[a].server
  }

  /** `connectionAttempt?.serverSocket ?? serverSocket` */
  function Current(clients: seq<Client>, attempts: seq<Attempt>, c: nat): Option<nat>
    requires c < |clients|
  {
    var client := clients[c];
    if client.attempt.Some? && client.attempt.value < |attempts| && attempts[client.attempt.value].server.Some?
    then attempts[client.attempt.value].server else client.server
  }

  function Enqueue(s: State, t: Task): State {
    s.(tasks := s.tasks + [t])
  }

  function Push(s: State, f: Frame): State {
    s.(stack := [f] + s.stack)
  }

  function Observe(s: State, o: Observation): State {
    s.(log := s.log + [o])
  }

  function SetAttempt(s: State, a: nat, attempt: Attempt): State
    requires a < |s.attempts|
  {
    s.(attempts := s.attempts[a := attempt])
  }

  function SetServer(s: State, v: nat, server: Server): State
    requires v < |s.servers|
  {
    s.(servers := s.servers[v := server])
  }

  /** `cleanupConnectionAttempt`: a socket that was never paired owns no queued delivery. */
  function Discard(s: State, v: nat): State
    requires v < |s.servers|
  {
    SetServer(s, v, s.servers[v].(active := false)).(rooms := Rooms.Cleanup(s.rooms, v))
  }

  function DiscardOf(s: State, v: Option<nat>): State {
    if v.Some? && v.value < |s.servers| then Discard(s, v.value) else s
  }

  predicate InDisconnect(stack: seq<Frame>, c: nat) {
    Tail(c) in stack
  }

  // Calls by application code.

  /** `ClientSocket.connect` for a known namespace, `pair` and `beginConnectionAttempt`. */
  function ConnectCall(s: State, c: nat): State
    requires c < |s.clients|
  {
    var client := s.clients[c];
    if client.connected || (client.attempt.Some? && IsPending(s, client.attempt.value)) then s
    else
      var a := |s.attempts|;
      s.(attempts := s.attempts + [Attempt(c, Pending, None, false, false, false, InDisconnect(s.stack, c), false)],
         clients := s.clients[c := client.(attempt := Some(a))],
         pending := s.pending + {c},
         tasks := s.tasks + [PairTask(a)])
  }

  /** Ends a pending attempt with its new phase. */
  function Abandon(s: State, a: nat, phase: Phase): State
    requires IsPending(s, a)
  {
    var c := s.attempts[a].client;
    DiscardOf(
      s.(attempts := s.attempts[a := s.attempts[a].(phase := phase)],
         clients := s.clients[c := s.clients[c].(attempt := None)],
         pending := s.pending - {c}),
      s.attempts[a].server)
  }

  /** `cancelConnectionAttempt` */
  function Cancel(s: State, c: nat): State
    requires c < |s.clients|
  {
    var attempt := s.clients[c].attempt;
    if attempt.Some? && IsPending(s, attempt.value) then Abandon(s, attempt.value, Cancelled) else s
  }

  /** `rejectConnectionAttempt`: an error that cannot be encoded throws once the attempt is over. */
  function Reject(s: State, a: nat, encodes: bool): State {
    if !IsPending(s, a) then s
    else
      var q := Abandon(s, a, Rejected(encodes));
      if encodes then Enqueue(q, ErrorTask(a)) else q
  }

  /** `markDisconnected`; listeners and rejected callbacks run right after it. */
  function MarkDisconnected(s: State, c: nat): State
    requires c < |s.clients|
  {
    var client := s.clients[c];
    s.(clients := s.clients[c := client.(connected := false, id := None, attempt := None)],
       attempts := if client.attempt.Some? && client.attempt.value < |s.attempts|
                   then s.attempts[client.attempt.value := s.attempts[client.attempt.value].(phase := Cancelled)]
                   else s.attempts,
       connected := s.connected - {c})
  }

  /** `ClientSocket.disconnect` */
  function DisconnectCall(s: State, c: nat): State
    requires c < |s.clients|
  {
    if !s.clients[c].connected then Cancel(s, c) else Push(MarkDisconnected(s, c), Tail(c))
  }

  /** `teardown`: the work itself waits for a microtask. */
  function Teardown(s: State, v: nat, closing: bool): State
    requires v < |s.servers|
  {
    if s.servers[v].torn then s
    else Enqueue(SetServer(s, v, s.servers[v].(torn := true, closing := closing)), TeardownTask(v))
  }

  /** `disconnectNamespaceFromServer` up to the `disconnecting` listeners. */
  function ServerDisconnectCall(s: State, v: nat): State
    requires v < |s.servers|
  {
    if s.servers[v].torn then s
    else Push(Observe(SetServer(s, v, s.servers[v].(torn := true, active := false)),
                      ServerDisconnecting(v, Rooms.View(s.rooms, v))),
              Clean(v, true))
  }

  /** `ownsConnection` */
  predicate Owns(s: State, c: nat, v: nat) {
    && c < |s.clients| && v < |s.servers| && s.servers[v].active
    && var client := s.clients[c];
       || (client.connected && client.server == Some(v))
       || (client.attempt.Some? && client.attempt.value < |s.attempts|
           && s.attempts[client.attempt.value].phase == Pending
           && s.attempts[client.attempt.value].server == Some(v))
  }

  function ManagerOf(s: State, v: nat): nat {
    if v < |s.servers| && s.servers[v].client < |s.clients| then s.clients[s.servers[v].client].manager else 0
  }

  /** `order` lists the connected clients of the Manager of `v`'s client. */
  predicate Snapshot(s: State, v: nat, order: seq<nat>) {
    && (forall i :: 0 <= i < |order| ==> order[i] < |s.clients|)
    && (forall c :: 0 <= c < |s.clients| ==>
          (c in order <==> (c in s.connected && s.clients[c].manager == ManagerOf(s, v))))
  }

  /** `disconnect(true)`: `Manager.disconnect` starts with the connected members. */
  function GroupCall(s: State, v: nat, order: seq<nat>): State
    requires v < |s.servers|
  {
    if Owns(s, s.servers[v].client, v) then Push(s, Group(order, 0, v)) else s
  }

  /** The pending members other than the initiator are cancelled, clients `i` and above still to come. */
  function CancelOthers(s: State, i: nat, manager: nat, v: nat): (r: State)
    ensures |r.clients| == |s.clients| && |r.servers| == |s.servers|
    decreases |s.clients| - i
  {
    if i >= |s.clients| then s
    else
      var q := if i in s.pending && s.clients[i].manager == manager && !Owns(s, i, v) then Cancel(s, i) else s;
      CancelOthers(q, i + 1, manager, v)
  }

  function GroupNext(s: State, order: seq<nat>, next: nat, v: nat): State
    requires v < |s.servers|
  {
    if next < |order| then
      var q := Push(s, Group(order, next + 1, v));
      var c := order[next];
      if c < |s.clients| && s.clients[c].connected && s.clients[c].server.Some?
         && s.clients[c].server.value < |s.servers|
      then ServerDisconnectCall(q, s.clients[c].server.value) else q
    else
      ServerDisconnectCall(CancelOthers(s, 0, ManagerOf(s, v), v), v)
  }

  /** `order` lists the admitted sockets of the namespace. */
  predicate Roster(s: State, space: nat, order: seq<nat>) {
    && (forall i :: 0 <= i < |order| ==> order[i] < |s.servers|)
    && (forall v :: 0 <= v < |s.servers| ==>
          (v in order <==> (v in s.rooms.roster
             && s.servers[v].client < |s.clients| && s.clients[s.servers[v].client].space == space)))
  }

  /** `close` of every listed socket. */
  function TeardownAll(s: State, order: seq<nat>): State
    decreases |order|
  {
    if order == [] then s
    else TeardownAll(if order[0] < |s.servers| then Teardown(s, order[0], true) else s, order[1..])
  }

  function CloseCall(s: State, space: nat, order: seq<nat>): State {
    TeardownAll(s.(closed := s.closed + {space}), order)
  }

  predicate SpaceClosed(s: State, a: nat) {
    && a < |s.attempts| && s.attempts[a].client < |s.clients|
    && s.clients[s.attempts[a].client].space in s.closed
  }

  /** The auth callback answers, at once or later, perhaps more than once. */
  function AuthenticateCall(s: State, a: nat): State
    requires a < |s.attempts|
  {
    if !s.attempts[a].asked || !IsPending(s, a) then s
    else if SpaceClosed(s, a) then Reject(s, a, true)
    else
      var v := |s.servers|;
      var q := s.(servers := s.servers + [Server(s.attempts[a].client, false, true, false, false)]);
      if s.attempts[a].server.Some? then Discard(q, v)
      else SetAttempt(q, a, s.attempts[a].(server := Some(v)))
  }

  /** The middleware chain reports admission or an error, once; the data of an error may not encode. */
  function CompleteCall(s: State, a: nat, failed: bool, encodes: bool): State
    requires a < |s.attempts|
  {
    if s.attempts[a].server == None || s.attempts[a].completed then s
    else Enqueue(SetAttempt(s, a, s.attempts[a].(completed := true, mute := failed && !encodes)), DoneTask(a, failed))
  }

  /** `ServerSocket.emit` up to its outgoing observers. */
  function EmitCall(s: State, v: nat): State
    requires v < |s.servers| && s.servers[v].client < |s.clients|
  {
    Push(s, Sending(v, false, s.clients[s.servers[v].client].connected))
  }

  /** A broadcast whose recipients, all admitted, have been selected. */
  function BroadcastCall(s: State, order: seq<nat>): State {
    Push(s, Broadcasting(order))
  }

  // Microtasks.

  function RunPair(s: State, a: nat): State {
    if !IsPending(s, a) then s
    else if SpaceClosed(s, a) then Reject(s, a, true)
    else SetAttempt(s, a, s.attempts[a].(asked := true))
  }

  /** Registration, the id room and the `connection` listeners. */
  function Admit(s: State, a: nat, v: nat): State
    requires v < |s.servers|
  {
    Push(Observe(SetServer(s, v, s.servers[v].(connected := true)).(
                   rooms := Rooms.Join(Rooms.Register(s.rooms, v), v, v)),
                 ServerConnection(a)),
         AfterConnection(a))
  }

  /** The deferred completion of the middleware chain. */
  function RunDone(s: State, a: nat, failed: bool): State {
    if a >= |s.attempts| then s
    else if failed then Reject(s, a, !s.attempts[a].mute)
    else if !IsPending(s, a) then
      if s.attempts[a].phase != Established then DiscardOf(s, s.attempts[a].server) else s
    else if SpaceClosed(s, a) then Reject(s, a, true)
    else if s.attempts[a].server.Some? && s.attempts[a].server.value < |s.servers|
    then Admit(s, a, s.attempts[a].server.value) else s
  }

  /** `completeConnectionAttempt` up to the observers of the flush. */
  function CompleteAttempt(s: State, a: nat): State {
    if a >= |s.attempts| then s
    else if !IsPending(s, a) then
      if s.attempts[a].phase != Established then DiscardOf(s, s.attempts[a].server) else s
    else
      var c := s.attempts[a].client;
      var v := s.attempts[a].server;
      s.(attempts := s.attempts[a := s.attempts[a].(phase := Established, connected := true)],
         clients := s.clients[c := s.clients[c].(connected := true, id := v, server := v)],
         pending := s.pending - {c},
         connected := s.connected + {c},
         stack := [Flushing(a)] + s.stack)
  }

  function RunTeardown(s: State, v: nat): State
    requires v < |s.servers|
  {
    Push(Observe(SetServer(s, v, s.servers[v].(active := false)), ServerDisconnecting(v, Rooms.View(s.rooms, v))),
         Clean(v, false))
  }

  function RunMark(s: State, v: nat): State {
    if v < |s.servers| && s.servers[v].client < |s.clients| && s.clients[s.servers[v].client].connected
    then MarkDisconnected(s, s.servers[v].client) else s
  }

  function RunTask(s: State, t: Task): State {
    match t
    case PairTask(a) => RunPair(s, a)
    case DoneTask(a, failed) => RunDone(s, a, failed)
    case ErrorTask(a) => Observe(s, ClientError(a))
    case TeardownTask(v) => if v < |s.servers| then RunTeardown(s, v) else s
    case MarkTask(v) => RunMark(s, v)
    case CloseMarkTask(v) => RunMark(s, v)
  }

  // What follows a callback.

  function CleanResume(s: State, v: nat, sync: bool): State
    requires v < |s.servers|
  {
    Push(SetServer(s, v, s.servers[v].(connected := false)).(rooms := Rooms.CleanBegin(s.rooms, v)),
         CleanEnd(v, sync))
  }

  function CleanEndResume(s: State, v: nat, sync: bool): State {
    var rooms := Rooms.CleanEnd(s.rooms, v);
    Push(Observe(s.(rooms := rooms), ServerDisconnect(v, Rooms.View(rooms, v))), Ended(v, sync))
  }

  function EndedResume(s: State, v: nat, sync: bool): State {
    if sync then Enqueue(s, MarkTask(v))
    else if v < |s.servers| && s.servers[v].closing then Enqueue(s, CloseMarkTask(v)) else s
  }

  function TailResume(s: State, c: nat): State {
    if c < |s.clients| && s.clients[c].server.Some? && s.clients[c].server.value < |s.servers|
    then Teardown(s, s.clients[c].server.value, false) else s
  }

  /** The packet is sent: by a direct emit only if the socket is still active; a broadcast was encoded before. */
  function SendingResume(s: State, v: nat, broadcast: bool, wasConnected: bool, encodes: bool): State {
    if v >= |s.servers| || s.servers[v].client >= |s.clients| then s
    else if !broadcast && !(s.servers[v].active && encodes) then s
    else
      var c := s.servers[v].client;
      var owned := wasConnected && !s.clients[c].connected;
      s.(packets := s.packets + [Packet(v, owned, Current(s.clients, s.attempts, c))])
  }

  function BroadcastingResume(s: State, order: seq<nat>): State {
    if order == [] then s
    else if order[0] < |s.servers| && s.servers[order[0]].client < |s.clients| then
      Push(Push(s, Broadcasting(order[1..])),
           Sending(order[0], true, s.clients[s.servers[order[0]].client].connected))
    else Push(s, Broadcasting(order[1..]))
  }

  /** What a flush or a direct emission observed is encoded after its observers, and that may throw. */
  function Resume(s: State, f: Frame, encodes: bool): State {
    match f
    case AfterConnection(a) => CompleteAttempt(s, a)
    case Flushing(a) => if IsConnected(s, a) && encodes then Observe(s, ClientConnect(a)) else s
    case Tail(c) => TailResume(s, c)
    case Clean(v, sync) => if v < |s.servers| then CleanResume(s, v, sync) else s
    case CleanEnd(v, sync) => CleanEndResume(s, v, sync)
    case Ended(v, sync) => EndedResume(s, v, sync)
    case Group(order, next, v) => if v < |s.servers| then GroupNext(s, order, next, v) else s
    case Sending(v, broadcast, wasConnected) => SendingResume(s, v, broadcast, wasConnected, encodes)
    case Broadcasting(order) => BroadcastingResume(s, order)
  }

  /** A server socket attached to this socket's client after it. */
  predicate Superseded(attempts: seq<Attempt>, c: nat, v: nat) {
    exists a :: 0 <= a < |attempts| && attempts[a].client == c
                && attempts[a].server.Some? && attempts[a].server.value > v
  }

  /** A live attempt of this socket's client was given a later socket. */
  predicate Overtaken(attempts: seq<Attempt>, c: nat, v: nat) {
    exists a :: 0 <= a < |attempts| && attempts[a].client == c && attempts[a].phase in {Pending, Established}
                && attempts[a].server.Some? && attempts[a].server.value > v
  }

  predicate Guard(s: State, p: Packet)
    requires p.via < |s.servers| && s.servers[p.via].client < |s.clients|
  {
    var c := s.servers[p.via].client;
    if p.owned then Current(s.clients, s.attempts, c) == Some(p.via)
    else
      && p.captured.Some?
      && ((s.clients[c].connected && Current(s.clients, s.attempts, c) == p.captured)
          || p.captured.value in s.rooms.draining)
  }

  function Arrival(s: State, p: Packet): Observation
    requires p.via < |s.servers| && s.servers[p.via].client < |s.clients|
  {
    var c := s.servers[p.via].client;
    Dispatched(p.via, Current(s.clients, s.attempts, c), p.captured, p.owned,
               !p.owned && p.captured.Some? && p.captured.value in s.rooms.draining,
               Superseded(s.attempts, c, p.via), Overtaken(s.attempts, c, p.via))
  }

  /** The adapter hands over a packet, whenever it likes. */
  function DeliverCall(s: State, i: nat): State
    requires i < |s.packets|
  {
    var p := s.packets[i];
    var q := s.(packets := s.packets[..i] + s.packets[i + 1..]);
    if p.via < |s.servers| && s.servers[p.via].client < |s.clients| && Guard(s, p)
    then Observe(q, Arrival(s, p)) else q
  }

  datatype Event =
    | Connect(client: nat)
    | Disconnect(client: nat)
    | DisconnectServer(server: nat)
    | DisconnectGroup(server: nat, order: seq<nat>)
    | CloseSpace(space: nat, order: seq<nat>)
    | Authenticate(attempt: nat)
    | Complete(attempt: nat, failed: bool, encodes: bool)
    | JoinRoom(server: nat, room: Rooms.Room)
    | LeaveRoom(server: nat, room: Rooms.Room)
    | Emit(server: nat)
    | Broadcast(order: seq<nat>)
    | Deliver(packet: nat)
    | Return(encodes: bool)
    | Microtask

  /** Whether an event can happen now. */
  predicate Enabled(s: State, e: Event) {
    match e
    case Connect(c) => c < |s.clients|
    case Disconnect(c) => c < |s.clients|
    case DisconnectServer(v) => v < |s.servers|
    case DisconnectGroup(v, order) => v < |s.servers| && Snapshot(s, v, order)
    case CloseSpace(space, order) => Roster(s, space, order)
    case Authenticate(a) => a < |s.attempts|
    case Complete(a, failed, encodes) => a < |s.attempts|
    case JoinRoom(v, room) => v < |s.servers|
    case LeaveRoom(v, room) => v < |s.servers|
    case Emit(v) => v < |s.servers| && s.servers[v].client < |s.clients|
    case Broadcast(order) => forall i :: 0 <= i < |order| ==> order[i] in s.rooms.roster
    case Deliver(i) => i < |s.packets|
    case Return(encodes) => s.stack != []
    case Microtask => s.stack == [] && s.tasks != []
  }

  function Perform(s: State, e: Event): State
    requires Enabled(s, e)
  {
    match e
    case Connect(c) => ConnectCall(s, c)
    case Disconnect(c) => DisconnectCall(s, c)
    case DisconnectServer(v) => ServerDisconnectCall(s, v)
    case DisconnectGroup(v, order) => GroupCall(s, v, order)
    case CloseSpace(space, order) => CloseCall(s, space, order)
    case Authenticate(a) => AuthenticateCall(s, a)
    case Complete(a, failed, encodes) => CompleteCall(s, a, failed, encodes)
    case JoinRoom(v, room) => s.(rooms := Rooms.Join(s.rooms, v, room))
    case LeaveRoom(v, room) => s.(rooms := Rooms.Leave(s.rooms, v, room))
    case Emit(v) => EmitCall(s, v)
    case Broadcast(order) => BroadcastCall(s, order)
    case Deliver(i) => DeliverCall(s, i)
    case Return(encodes) => Resume(s.(stack := s.stack[1..]), s.stack[0], encodes)
    case Microtask => RunTask(s.(tasks := s.tasks[1..]), s.tasks[0])
  }

  function Step(s: State, e: Event): State {
    if Enabled(s, e) then Perform(s, e) else s
  }

  function Run(s: State, events: seq<Event>): State
    decreases |events|
  {
    if events == [] then s else Run(Step(s, events[0]), events[1..])
  }

  /** Clients exist from the start, idle; each belongs to one Manager and one namespace. */
  ghost predicate Initial(s: State) {
    && (forall c :: 0 <= c < |s.clients| ==>
          !s.clients[c].connected && s.clients[c].id == None && s.clients[c].server == None && s.clients[c].attempt == None)
    && s.attempts == [] && s.servers == [] && s.pending == {} && s.connected == {} && s.closed == {}
    && s.rooms == Rooms.EMPTY && s.tasks == [] && s.stack == [] && s.packets == [] && s.log == []
  }
}
