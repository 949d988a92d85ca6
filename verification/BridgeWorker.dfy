/** The worker object itself: the variables and handlers of `attachSharedWorker`. */
module BridgeWorker {
  import opened Common
  import opened BridgeMessages
  import BridgeHost

  /** What has happened so far; the code never reads it. */
  datatype History = History(
    requests: seq<nat>,
    issued: map<AckId, nat>,
    answers: map<nat, Payload>,
    ran: seq<BridgeHost.Ran>,
    received: seq<nat>,
    silenced: set<nat>,
    errors: seq<BridgeHost.ProtocolError>)

  class SharedWorkerHost {
    var active: Option<nat>
    var nextGeneration: nat
    var closed: bool
    var connections: map<nat, BridgeHost.Connection>
    var acks: map<nat, BridgeHost.Acks>
    var references: seq<BridgeHost.Reference>
    var port: seq<HostMessage>
    var events: nat
    ghost var history: History

    ghost function State(): BridgeHost.State
      reads this
    {
      BridgeHost.State(
        active, nextGeneration, closed, connections, acks, references, port,
        history.requests, events, history.issued, history.answers, history.ran,
        history.received, history.silenced, history.errors)
    }

    predicate Known(g: nat)
      reads this
    {
      g in connections && g in acks
    }

    predicate Live(g: nat)
      reads this
    {
      Known(g) && !connections[g].finished && active == Some(g)
    }

    constructor ()
      ensures State() == BridgeHost.INITIAL
    {
      active, nextGeneration, closed := None, 0, false;
      connections, acks, references, port := map[], map[], [], [];
      events, history := 0, History([], map[], map[], [], [], {}, []);
    }

    method Post(message: HostMessage)
      modifies this`port
      ensures port == old(port) + [message]
    {
      port := port + [message];
    }

    method PostFailure(g: nat, reported: bool)
      modifies this`port
      ensures port == if reported then old(port) + [BridgeError(Some(g))] else old(port)
    {
      if reported { Post(BridgeError(Some(g))); }
    }

    method Finish(g: nat, notify: bool)
      requires Known(g)
      modifies this
      ensures State() == BridgeHost.Finish(old(State()), g, notify)
    {
      var state := connections[g];
      if state.finished { return; }
      if !notify && state.announced { history := history.(silenced := history.silenced + {g}); }
      connections := connections[g := state.(finished := true)];
      acks := acks[g := acks[g].(server := map[], client := {})];
      if active == Some(g) { active := None; }
      if notify { Post(Disconnected(state.request, g)); }
    }

    method ReceiveConnect(request: nat, accepted: bool)
      modifies this
      ensures State() == BridgeHost.ReceiveConnect(old(State()), request, accepted)
    {
      if active.Some? && Known(active.value) { Finish(active.value, true); }
      Open(request, accepted);
    }

    method Open(request: nat, accepted: bool)
      modifies this
      ensures State() == BridgeHost.Open(old(State()), request, accepted)
    {
      nextGeneration := nextGeneration + 1;
      history := history.(requests := history.requests + [request]);
      if !accepted {
        Post(ConnectError(request, nextGeneration));
        return;
      }
      connections := connections[nextGeneration := BridgeHost.Connection(request, false, false)];
      acks := acks[nextGeneration := BridgeHost.NO_ACKS];
      active := Some(nextGeneration);
    }

    method SocketConnect(g: nat, cloned: bool, reported: bool)
      requires Known(g)
      modifies this
      ensures State() == BridgeHost.SocketConnect(old(State()), g, cloned, reported)
    {
      if !Live(g) { return; }
      if cloned {
        var state := connections[g];
        connections := connections[g := state.(announced := true)];
        Post(Connected(state.request, g));
      } else {
        PostFailure(g, reported);
        Finish(g, false);
      }
    }

    method SocketConnectError(g: nat)
      requires Known(g)
      modifies this
      ensures State() == BridgeHost.SocketConnectError(old(State()), g)
    {
      if !Live(g) { return; }
      Post(ConnectError(connections[g].request, g));
      Finish(g, false);
    }

    method SocketDisconnect(g: nat)
      requires Known(g)
      modifies this
      ensures State() == BridgeHost.SocketDisconnect(old(State()), g)
    {
      Finish(g, true);
    }

    method ForwardServerEvent(g: nat, wantsAck: bool, cloned: bool, reported: bool)
      requires Known(g)
      modifies this
      ensures State() == BridgeHost.ForwardServerEvent(old(State()), g, wantsAck, cloned, reported)
    {
      if !Live(g) { return; }
      var event := events;
      var ackId := None;
      var pending := acks[g];
      if wantsAck {
        ackId := Some(ServerAckId(g, pending.next + 1));
        pending := pending.(next := pending.next + 1);
        if cloned { pending := pending.(server := pending.server[ackId.value := event]); }
      }
      acks := acks[g := pending];
      events := events + 1;
      if cloned {
        if wantsAck { history := history.(issued := history.issued[ackId.value := event]); }
        Post(ServerEvent(g, event, ackId));
      } else {
        PostFailure(g, reported);
      }
    }

    method HandleClientEvent(g: nat, emission: nat, ackId: Option<AckId>, emitted: bool)
      requires Known(g)
      modifies this
      ensures State() == BridgeHost.HandleClientEvent(old(State()), g, emission, ackId, emitted)
    {
      if emitted { history := history.(received := history.received + [emission]); }
      if ackId == None { return; }
      var pending := acks[g];
      if emitted { pending := pending.(client := pending.client + {|references|}); }
      references := references + [BridgeHost.Reference(g, ackId.value, emission)];
      acks := acks[g := pending];
    }

    method AnswerClientEvent(r: nat, payload: Payload, cloned: bool, reported: bool)
      requires r < |references| && Known(references[r].generation)
      modifies this
      ensures State() == BridgeHost.AnswerClientEvent(old(State()), r, payload, cloned, reported)
    {
      var reference := references[r];
      var g := reference.generation;
      if r !in acks[g].client { return; }
      acks := acks[g := acks[g].(client := acks[g].client - {r})];
      history := history.(answers := history.answers[r := payload]);
      if !Live(g) { return; }
      if cloned {
        Post(AckClient(g, reference.ackId, payload));
      } else {
        PostFailure(g, reported);
      }
    }

    method HandleServerAck(g: nat, ackId: AckId, payload: Payload)
      requires Known(g)
      modifies this
      ensures State() == BridgeHost.HandleServerAck(old(State()), g, ackId, payload)
    {
      var pending := acks[g];
      if ackId !in pending.server { return; }
      acks := acks[g := pending.(server := pending.server - {ackId})];
      history := history.(ran := history.ran + [BridgeHost.Ran(pending.server[ackId], payload)]);
    }

    method ReportError(error: BridgeHost.ProtocolError)
      modifies this
      ensures State() == BridgeHost.ReportError(old(State()), error)
    {
      history := history.(errors := history.errors + [error]);
      Post(BridgeError(None));
    }

    method HandleMessage(message: PageMessage, accepted: bool, emitted: bool)
      modifies this
      ensures State() == BridgeHost.HandleMessage(old(State()), message, accepted, emitted)
    {
      if message.Connect? {
        ReceiveConnect(message.request, accepted);
        return;
      }
      if active == None {
        if message.generation > nextGeneration { ReportError(BridgeHost.NoActiveConnection); }
        return;
      }
      var g := active.value;
      if message.generation < g { return; }
      if message.generation > g {
        ReportError(BridgeHost.UnknownGeneration);
        return;
      }
      if !Known(g) { return; }
      if message.Disconnect? && message.request != connections[g].request {
        ReportError(BridgeHost.NotTheOwner);
        return;
      }
      match message
      case ClientEvent(_, emission, ackId) => HandleClientEvent(g, emission, ackId, emitted);
      case AckServer(_, ackId, payload) => HandleServerAck(g, ackId, payload);
      case Disconnect(_, _) => Finish(g, true);
    }

    method Close()
      modifies this
      ensures State() == BridgeHost.CloseCall(old(State()))
    {
      if closed { return; }
      closed := true;
      if active.Some? && Known(active.value) { Finish(active.value, true); }
    }
  }
}
