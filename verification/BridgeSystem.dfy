/**
  Both sides joined by two reliable FIFO channels. A channel is the list of all
  messages ever posted with the number of those already received.
 */
module BridgeSystem {
  import opened Common
  import opened BridgeMessages
  import Page = BridgePage
  import Host = BridgeHost

  datatype System = System(page: Page.State, host: Host.State, hostRead: nat, pageRead: nat)

  const INITIAL := System(Page.INITIAL, Host.INITIAL, 0, 0)

  /** Everything that can happen next; Booleans and counters are the environment's choices. */
  datatype Event =
    | PageConnect(cloned: bool)
    | PageDisconnect
    | PageEmit(wantsAck: bool, cloned: bool)
    | PageAcknowledge(reference: nat, payload: Payload, cloned: bool)
    | PageResume(failing: nat)
    | PageReceive(failing: nat)
    | HostReceive(accepted: bool, emitted: bool)
    | HostSocketConnect(generation: nat, cloned: bool, reported: bool)
    | HostSocketConnectError(generation: nat)
    | HostSocketDisconnect(generation: nat)
    | HostServerEvent(generation: nat, wantsAck: bool, cloned: bool, reported: bool)
    | HostAnswer(reference: nat, payload: Payload, cloned: bool, reported: bool)
    | HostClose

  /** An event that cannot happen now changes nothing. */
  function Step(s: System, e: Event): System {
    var p, h := s.page, s.host;
    match e
    case PageConnect(cloned) => s.(page := Page.ConnectCall(p, cloned))
    case PageDisconnect => s.(page := Page.DisconnectCall(p))
    case PageEmit(wantsAck, cloned) => s.(page := Page.EmitCall(p, wantsAck, cloned))
    case PageAcknowledge(r, payload, cloned) =>
      if r < |p.references| then s.(page := Page.AcknowledgeCall(p, r, payload, cloned)) else s
    case PageResume(failing) => s.(page := Page.Resume(p, failing))
    case PageReceive(failing) =>
      // A message is a task of its own, so no listener is running.
      if p.frames == [] && s.pageRead < |h.posted| then
        s.(page := Page.Receive(p, h.posted[s.pageRead], failing), pageRead := s.pageRead + 1)
      else s
    case HostReceive(accepted, emitted) =>
      if !h.closed && s.hostRead < |p.posted| then
        s.(host := Host.HandleMessage(h, p.posted[s.hostRead], accepted, emitted), hostRead := s.hostRead + 1)
      else s
    case HostSocketConnect(g, cloned, reported) =>
      if Host.Known(h, g) then s.(host := Host.SocketConnect(h, g, cloned, reported)) else s
    case HostSocketConnectError(g) =>
      if Host.Known(h, g) then s.(host := Host.SocketConnectError(h, g)) else s
    case HostSocketDisconnect(g) =>
      if Host.Known(h, g) then s.(host := Host.SocketDisconnect(h, g)) else s
    case HostServerEvent(g, wantsAck, cloned, reported) =>
      if Host.Known(h, g) then s.(host := Host.ForwardServerEvent(h, g, wantsAck, cloned, reported)) else s
    case HostAnswer(r, payload, cloned, reported) =>
      if r < |h.references| && Host.Known(h, h.references[r].generation) then
        s.(host := Host.AnswerClientEvent(h, r, payload, cloned, reported))
      else s
    case HostClose => s.(host := Host.CloseCall(h))
  }

  function Run(s: System, events: seq<Event>): System
    decreases |events|
  {
    if events == [] then s else Run(Step(s, events[0]), events[1..])
  }
}
