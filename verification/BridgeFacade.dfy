/** The page object itself: `SharedWorkerSocketImplementation` with the fields of the source. */
module BridgeFacade {
  import opened Common
  import opened BridgeMessages
  import BridgePage

  /** What has happened so far; the code never reads it. */
  datatype History = History(
    sent: seq<nat>,
    dropped: seq<nat>,
    issued: map<AckId, nat>,
    answers: map<nat, Payload>,
    ran: seq<BridgePage.Ran>,
    dispatched: seq<BridgePage.Dispatched>)

  class SharedWorkerSocket {
    var connected: bool
    var connecting: bool
    var disconnecting: bool
    var disconnectAfterConnect: bool
    var requestSequence: nat
    var acknowledgementSequence: nat
    var requestId: Option<nat>
    var generation: Option<nat>
    var outgoingBuffer: seq<BridgePage.Emission>
    var pendingClientAcknowledgements: map<AckId, nat>
    var references: seq<BridgePage.Reference>
    var pendingServerAcknowledgements: set<nat>
    var callStack: seq<BridgePage.Frame>
    var port: seq<PageMessage>
    var emissions: nat
    ghost var history: History

    ghost function State(): BridgePage.State
      reads this
    {
      BridgePage.State(
        connected, connecting, disconnecting, disconnectAfterConnect, requestSequence, acknowledgementSequence,
        requestId, generation, outgoingBuffer, pendingClientAcknowledgements, references,
        pendingServerAcknowledgements, callStack, port,
        emissions, history.sent, history.dropped, history.issued, history.answers, history.ran, history.dispatched)
    }

    constructor (cloned: bool)
      ensures State() == BridgePage.ConnectCall(BridgePage.INITIAL, cloned)
    {
      connected, connecting, disconnecting, disconnectAfterConnect := false, false, false, false;
      requestSequence, acknowledgementSequence, requestId, generation := 0, 0, None, None;
      outgoingBuffer, pendingClientAcknowledgements := [], map[];
      references, pendingServerAcknowledgements, callStack, port := [], {}, [], [];
      emissions, history := 0, History([], [], map[], map[], [], []);
      new;
      Connect(cloned);
    }

    method ReleaseAcknowledgements()
      modifies this`pendingClientAcknowledgements, this`pendingServerAcknowledgements
      ensures pendingClientAcknowledgements == map[] && pendingServerAcknowledgements == {}
    {
      pendingClientAcknowledgements := map[];
      pendingServerAcknowledgements := {};
    }

    method ReleaseGeneration()
      modifies this`connected, this`generation
      modifies this`pendingClientAcknowledgements, this`pendingServerAcknowledgements
      ensures !connected && generation == None
      ensures pendingClientAcknowledgements == map[] && pendingServerAcknowledgements == {}
    {
      connected := false;
      generation := None;
      ReleaseAcknowledgements();
    }

    /** Posts a message that validates and clones when `cloned` holds. */
    method Post(m: PageMessage, cloned: bool) returns (posted: bool)
      modifies this`port
      ensures posted == cloned
      ensures port == if cloned then old(port) + [m] else old(port)
    {
      if cloned { port := port + [m]; }
      posted := cloned;
    }

    method BeginRequest()
      modifies this`connected, this`generation, this`disconnectAfterConnect, this`disconnecting, this`connecting
      modifies this`pendingClientAcknowledgements, this`pendingServerAcknowledgements
      modifies this`requestSequence, this`requestId
      ensures State() == BridgePage.Requesting(old(State()))
    {
      ReleaseGeneration();
      disconnectAfterConnect := false;
      disconnecting := false;
      connecting := true;
      requestSequence := requestSequence + 1;
      requestId := Some(requestSequence);
    }

    method Connect(cloned: bool)
      modifies this
      ensures State() == BridgePage.ConnectCall(old(State()), cloned)
    {
      if connected && !disconnecting { return; }
      BeginRequest();
      var posted := Post(PageMessage.Connect(requestSequence), cloned);
      if !posted {
        // The bridge_error listeners run now; Resume undoes the attempt afterwards.
        callStack := [BridgePage.ConnectFailed] + callStack;
      }
    }

    method Disconnect()
      modifies this`disconnectAfterConnect, this`disconnecting, this`connected, this`port
      modifies this`pendingClientAcknowledgements, this`pendingServerAcknowledgements
      ensures State() == BridgePage.DisconnectCall(old(State()))
    {
      if disconnecting || (!connected && !connecting) { return; }
      if !connected || generation == None || requestId == None {
        disconnectAfterConnect := true;
        return;
      }
      disconnecting := true;
      connected := false;
      ReleaseAcknowledgements();
      PostDisconnect(requestId.value, generation.value);
    }

    method PostDisconnect(request: nat, g: nat)
      modifies this`port
      ensures State() == old(State()).(posted := old(State()).posted + [PageMessage.Disconnect(request, g)])
    {
      var _ := Post(PageMessage.Disconnect(request, g), true);
    }

    method Emit(wantsAck: bool, cloned: bool)
      modifies this
      ensures State() == BridgePage.EmitCall(old(State()), wantsAck, cloned)
    {
      var emission := BridgePage.Emission(emissions, wantsAck);
      emissions := emissions + 1;
      if !connected || generation == None || disconnecting {
        outgoingBuffer := outgoingBuffer + [emission];
        return;
      }
      var _ := PostEmission(emission, generation.value, cloned);
    }

    method PostEmission(emission: BridgePage.Emission, g: nat, cloned: bool) returns (posted: bool)
      modifies this`acknowledgementSequence, this`pendingClientAcknowledgements, this`port
      modifies this`history, this`callStack
      ensures posted == cloned
      ensures State() == BridgePage.PostEmission(old(State()), emission, g, cloned)
    {
      var ackId := None;
      if emission.wantsAck {
        acknowledgementSequence := acknowledgementSequence + 1;
        ackId := Some(ClientAckId(g, acknowledgementSequence));
        pendingClientAcknowledgements := pendingClientAcknowledgements[ackId.value := emission.id];
        history := history.(issued := history.issued[ackId.value := emission.id]);
      }
      posted := Post(ClientEvent(g, emission.id, ackId), cloned);
      if posted {
        history := history.(sent := history.sent + [emission.id]);
      } else {
        history := history.(dropped := history.dropped + [emission.id]);
        callStack := [BridgePage.EmissionFailed(ackId)] + callStack;
      }
    }

    /** Flushes until the end, an interruption, or the `failing`-th post, which fails. */
    method FlushOutgoing(failing: nat)
      modifies this
      ensures State() == BridgePage.FlushOutgoing(old(State()), failing)
    {
      if generation == None { return; }
      var g := generation.value;
      var buffered := outgoingBuffer;
      outgoingBuffer := [];
      FlushRest(g, buffered, failing);
    }

    method FlushRest(g: nat, buffered: seq<BridgePage.Emission>, failing: nat)
      modifies this
      ensures State() == BridgePage.FlushLoop(old(State()), g, buffered, failing)
    {
      var index := 0;
      while index < |buffered|
        invariant index <= |buffered| && index <= failing
        invariant BridgePage.FlushLoop(State(), g, buffered[index..], failing - index)
               == BridgePage.FlushLoop(old(State()), g, buffered, failing)
      {
        if !connected || generation != Some(g) || disconnecting {
          outgoingBuffer := buffered[index..] + outgoingBuffer;
          return;
        }
        assert buffered[index..][1..] == buffered[index + 1..];
        if index == failing {
          InterruptFlush(g, buffered[index..]);
          return;
        }
        var _ := PostEmission(buffered[index], g, true);
        index := index + 1;
      }
    }

    /** The first emission of `rest` cannot be posted; the others wait for the listeners to return. */
    method InterruptFlush(g: nat, rest: seq<BridgePage.Emission>)
      requires rest != [] && BridgePage.MayFlush(State(), g)
      modifies this
      ensures State() == BridgePage.FlushLoop(old(State()), g, rest, 0)
    {
      callStack := [BridgePage.Flush(g, rest[1..])] + callStack;
      var _ := PostEmission(rest[0], g, false);
    }

    method Resume(failing: nat)
      modifies this
      ensures State() == BridgePage.Resume(old(State()), failing)
    {
      if callStack == [] { return; }
      var frame := callStack[0];
      callStack := callStack[1..];
      match frame
      case ConnectFailed =>
        connecting := false;
        requestId := None;
      case EmissionFailed(ackId) =>
        if ackId.Some? {
          pendingClientAcknowledgements := pendingClientAcknowledgements - {ackId.value};
        }
      case Flush(g, rest) =>
        FlushRest(g, rest, failing);
    }

    method Receive(message: HostMessage, failing: nat)
      modifies this
      ensures State() == BridgePage.Receive(old(State()), message, failing)
    {
      match message
      case BridgeError(_) =>
      case Connected(r, g) =>
        ReceiveConnected(r, g, failing);
      case ConnectError(r, _) =>
        if Some(r) == requestId && connecting { ReceiveConnectError(); }
      case ServerEvent(g, event, ackId) =>
        if Some(g) == generation && connected && !disconnecting { ReceiveServerEvent(g, event, ackId); }
      case AckClient(g, ackId, payload) =>
        if Some(g) == generation && connected && !disconnecting { ReceiveAcknowledgement(ackId, payload); }
      case Disconnected(r, g) =>
        if Some(g) == generation && Some(r) == requestId { ReceiveDisconnected(); }
    }

    method ReceiveConnectError()
      modifies this`connecting, this`generation, this`connected
      ensures State() == BridgePage.ReceiveError(old(State()))
    {
      connecting := false;
      generation := None;
      connected := false;
    }

    method ReceiveAcknowledgement(ackId: AckId, payload: Payload)
      modifies this`pendingClientAcknowledgements, this`history
      ensures State() == BridgePage.ReceiveAcknowledgement(old(State()), ackId, payload)
    {
      if ackId !in pendingClientAcknowledgements { return; }
      history := history.(ran := history.ran + [BridgePage.Ran(pendingClientAcknowledgements[ackId], payload)]);
      pendingClientAcknowledgements := pendingClientAcknowledgements - {ackId};
    }

    method ReceiveDisconnected()
      modifies this`connecting, this`disconnecting, this`connected, this`generation
      modifies this`pendingClientAcknowledgements, this`pendingServerAcknowledgements
      ensures State() == BridgePage.ReceiveDisconnected(old(State()))
    {
      connecting := false;
      disconnecting := false;
      ReleaseGeneration();
    }

    method ReceiveConnected(request: nat, g: nat, failing: nat)
      modifies this
      ensures State() == BridgePage.ReceiveConnected(old(State()), request, g, failing)
    {
      if Some(request) != requestId || !connecting { return; }
      generation := Some(g);
      connected := true;
      connecting := false;
      acknowledgementSequence := 0;
      assert State() == BridgePage.Opened(old(State()), g);
      if disconnectAfterConnect {
        disconnectAfterConnect := false;
        Disconnect();
        return;
      }
      FlushOutgoing(failing);
    }

    method ReceiveServerEvent(g: nat, event: nat, ackId: Option<AckId>)
      modifies this
      ensures State() == BridgePage.ReceiveServerEvent(old(State()), g, event, ackId)
    {
      if ackId.Some? {
        pendingServerAcknowledgements := pendingServerAcknowledgements + {|references|};
        references := references + [BridgePage.Reference(g, ackId.value, event)];
      }
      history := history.(dispatched := history.dispatched + [BridgePage.Dispatched(event, g, requestSequence)]);
    }

    method Acknowledge(r: nat, payload: Payload, cloned: bool)
      requires r < |references|
      modifies this
      ensures State() == BridgePage.AcknowledgeCall(old(State()), r, payload, cloned)
    {
      if r !in pendingServerAcknowledgements { return; }
      pendingServerAcknowledgements := pendingServerAcknowledgements - {r};
      history := history.(answers := history.answers[r := payload]);
      var reference := references[r];
      if !connected || disconnecting || generation != Some(reference.generation) { return; }
      var _ := Post(AckServer(reference.generation, reference.ackId, payload), cloned);
    }
  }
}
