/**
  The host alone: every step of it keeps what is known about its generations, its active
  record, and what may still follow on the channel to the page. The page plays no part here;
  the two sides meet in `BridgeSafety`.
 */
module BridgeHostSteps {
  import opened Common
  import opened BridgeMessages
  import opened BridgeInvariant
  import Host = BridgeHost

  lemma PostKeepsBase(h: Host.State, m: HostMessage)
    requires HostBase(h)
    requires Tag(m) == None || (Tag(m) == h.active && !Terminal(m) && !m.Connected?)
    ensures HostBase(Host.Post(h, m))
  {}

  lemma FinishKeepsRegistry(h: Host.State, g: nat, notify: bool)
    requires HostShape(h) && Host.Known(h, g)
    ensures var k := Host.Finish(h, g, notify); Registry(k.requests, k.connections, k.active)
  {}

  lemma FinishReleases(h: Host.State, g: nat, notify: bool)
    requires HostShape(h) && Host.Known(h, g)
    ensures var k := Host.Finish(h, g, notify); Released(k.connections, k.acks)
  {}

  lemma FinishKeepsMessages(h: Host.State, g: nat, notify: bool)
    requires HostShape(h) && Host.Known(h, g) && HostMessagesOf(h)
    ensures HostMessagesOf(Host.Finish(h, g, notify))
  {}

  lemma FinishKeepsEndings(h: Host.State, g: nat, notify: bool)
    requires HostBase(h) && Host.Known(h, g)
    ensures EndingsOf(Host.Finish(h, g, notify))
  {}

  lemma FinishKeepsBase(h: Host.State, g: nat, notify: bool)
    requires HostBase(h) && Host.Known(h, g)
    ensures HostBase(Host.Finish(h, g, notify))
    ensures Host.Finish(h, g, notify).active != Some(g)
  {
    FinishKeepsRegistry(h, g, notify);
    FinishReleases(h, g, notify);
    FinishKeepsMessages(h, g, notify);
    FinishKeepsEndings(h, g, notify);
  }

  /** A CONNECT_ERROR may be posted once for a generation that is not active. */
  lemma PostErrorKeepsBase(h: Host.State, request: nat, g: nat)
    requires HostBase(h) && 1 <= g <= |h.requests| && request == h.requests[g - 1] && h.active != Some(g)
    requires forall i :: 0 <= i < |h.posted| && Terminal(h.posted[i]) ==> h.posted[i].generation != g
    ensures HostBase(Host.Post(h, ConnectError(request, g)))
  {}

  lemma RequestKeepsBase(h: Host.State, request: nat)
    requires HostBase(h) && h.active == None
    requires forall k :: 0 <= k < |h.requests| ==> h.requests[k] < request
    ensures HostBase(h.(nextGeneration := h.nextGeneration + 1, requests := h.requests + [request]))
  {}

  lemma AcceptKeepsBase(h: Host.State)
    requires HostBase(h) && h.active == None && |h.requests| > 0 && |h.requests| !in h.connections
    requires forall i :: 0 <= i < |h.posted| && Terminal(h.posted[i]) ==> h.posted[i].generation != |h.requests|
    ensures var g := |h.requests|;
            HostBase(h.(connections := h.connections[g := Host.Connection(h.requests[g - 1], false, false)],
                        acks := h.acks[g := Host.NO_ACKS],
                        active := Some(g)))
  {}

  lemma MarkAnnouncedKeepsBase(h: Host.State, g: nat)
    requires HostBase(h) && Host.Live(h, g)
    ensures HostBase(h.(connections := h.connections[g := h.connections[g].(announced := true)]))
  {}

  lemma PostConnectedKeepsBase(h: Host.State, g: nat)
    requires HostBase(h) && Host.Live(h, g) && h.connections[g].announced
    ensures HostBase(Host.Post(h, Connected(h.connections[g].request, g)))
  {}

  lemma AnnounceKeepsBase(h: Host.State, g: nat)
    requires HostBase(h) && Host.Live(h, g)
    ensures HostBase(Host.SocketConnect(h, g, true, true))
  {
    hide HostShape, HostMessagesOf, EndingsOf;
    MarkAnnouncedKeepsBase(h, g);
    PostConnectedKeepsBase(h.(connections := h.connections[g := h.connections[g].(announced := true)]), g);
  }

  lemma AcksKeepBase(h: Host.State, g: nat, d: Host.Acks)
    requires HostBase(h) && Host.Live(h, g)
    ensures HostBase(h.(acks := h.acks[g := d]))
  {}

  /** The host's knowledge only grows. */
  ghost predicate Extends(h: Host.State, k: Host.State) {
    && h.requests <= k.requests
    && h.posted <= k.posted
    && (forall g :: g in h.connections && h.connections[g].announced ==>
          g in k.connections && k.connections[g].announced)
  }

  lemma FinishExtends(h: Host.State, g: nat, notify: bool)
    requires Host.Known(h, g)
    ensures Extends(h, Host.Finish(h, g, notify))
    ensures Host.Finish(h, g, notify).requests == h.requests
  {}

  /** The fields the facts depend on. */
  ghost predicate SameCore(h: Host.State, k: Host.State) {
    && h.active == k.active && h.nextGeneration == k.nextGeneration && h.connections == k.connections
    && h.acks == k.acks && h.posted == k.posted && h.requests == k.requests
    && h.silenced == k.silenced && h.errors == k.errors
  }

  lemma SameCoreKeepsBase(h: Host.State, k: Host.State)
    requires HostBase(h) && SameCore(h, k)
    ensures HostBase(k)
  {}

  lemma NoTerminalAhead(h: Host.State)
    requires HostMessagesOf(h)
    ensures forall i :: 0 <= i < |h.posted| && Terminal(h.posted[i]) ==> h.posted[i].generation != |h.requests| + 1
  {}

  lemma NoTerminalYet(h: Host.State, g: nat)
    requires HostMessagesOf(h) && h.active == Some(g)
    ensures forall i :: 0 <= i < |h.posted| && Terminal(h.posted[i]) ==> h.posted[i].generation != g
  {}

  lemma ActiveIsLive(h: Host.State)
    requires HostShape(h) && h.active.Some?
    ensures Host.Live(h, h.active.value) && h.active.value == |h.requests|
  {}

  lemma KnownRequest(h: Host.State, g: nat)
    requires HostShape(h) && Host.Known(h, g)
    ensures 1 <= g <= |h.requests| && h.connections[g].request == h.requests[g - 1]
    ensures h.acks[g].client != {} || h.acks[g].server != map[] ==> Host.Live(h, g)
  {}

  lemma NextIsNew(h: Host.State)
    requires HostShape(h)
    ensures h.nextGeneration == |h.requests|
    ensures h.nextGeneration + 1 !in h.connections && h.nextGeneration + 1 !in h.acks
  {}

  lemma ReceiveConnectKeepsBase(h: Host.State, request: nat, accepted: bool)
    requires HostBase(h)
    requires forall k :: 0 <= k < |h.requests| ==> h.requests[k] < request
    ensures var k := Host.ReceiveConnect(h, request, accepted);
            HostBase(k) && Extends(h, k) && k.requests == h.requests + [request]
  {
    hide HostShape, HostMessagesOf, EndingsOf;
    var q := h;
    if h.active.Some? {
      ActiveIsLive(h);
      q := Host.Finish(h, h.active.value, true);
      FinishKeepsBase(h, h.active.value, true);
      FinishExtends(h, h.active.value, true);
    }
    OpenKeepsBase(q, request, accepted);
  }

  /** The part of `connect` that follows the end of the previous connection. */
  lemma OpenKeepsBase(h: Host.State, request: nat, accepted: bool)
    requires HostBase(h) && h.active == None
    requires forall k :: 0 <= k < |h.requests| ==> h.requests[k] < request
    ensures var k := Host.ReceiveConnect(h, request, accepted);
            HostBase(k) && Extends(h, k) && k.requests == h.requests + [request]
  {
    hide HostShape, HostMessagesOf, EndingsOf;
    RequestKeepsBase(h, request);
    NextIsNew(h);
    var n := h.(nextGeneration := h.nextGeneration + 1, requests := h.requests + [request]);
    NoTerminalAhead(h);
    if accepted {
      AcceptKeepsBase(n);
    } else {
      PostErrorKeepsBase(n, request, n.nextGeneration);
    }
  }

  lemma PostFailureKeepsBase(h: Host.State, g: nat, reported: bool)
    requires HostBase(h) && Host.Live(h, g)
    ensures HostBase(Host.PostFailure(h, g, reported)) && Extends(h, Host.PostFailure(h, g, reported))
    ensures Host.Live(Host.PostFailure(h, g, reported), g)
  {
    PostKeepsBase(h, BridgeError(Some(g)));
  }

  lemma SocketConnectKeepsBase(h: Host.State, g: nat, cloned: bool, reported: bool)
    requires HostBase(h) && Host.Known(h, g)
    ensures var k := Host.SocketConnect(h, g, cloned, reported);
            HostBase(k) && Extends(h, k) && k.requests == h.requests
  {
    hide HostShape, HostMessagesOf, EndingsOf;
    if Host.Live(h, g) {
      if cloned {
        AnnounceKeepsBase(h, g);
      } else {
        PostFailureKeepsBase(h, g, reported);
        var q := Host.PostFailure(h, g, reported);
        FinishKeepsBase(q, g, false);
        FinishExtends(q, g, false);
      }
    }
  }

  lemma SocketConnectErrorKeepsBase(h: Host.State, g: nat)
    requires HostBase(h) && Host.Known(h, g)
    ensures var k := Host.SocketConnectError(h, g);
            HostBase(k) && Extends(h, k) && k.requests == h.requests
  {
    hide HostShape, HostMessagesOf, EndingsOf;
    if Host.Live(h, g) {
      var r := h.connections[g].request;
      var q := Host.Finish(h, g, false);
      FinishKeepsBase(h, g, false);
      FinishExtends(h, g, false);
      NoTerminalYet(h, g);
      KnownRequest(h, g);
      PostErrorKeepsBase(q, r, g);
      assert Host.SocketConnectError(h, g) == Host.Post(q, ConnectError(r, g));
    }
  }

  lemma ForwardServerEventKeepsBase(h: Host.State, g: nat, wantsAck: bool, cloned: bool, reported: bool)
    requires HostBase(h) && Host.Known(h, g)
    ensures var k := Host.ForwardServerEvent(h, g, wantsAck, cloned, reported);
            HostBase(k) && Extends(h, k) && k.requests == h.requests
  {
    hide HostShape, HostMessagesOf, EndingsOf;
    if Host.Live(h, g) {
      var k := Host.ForwardServerEvent(h, g, wantsAck, cloned, reported);
      AcksKeepBase(h, g, k.acks[g]);
      var q := h.(acks := h.acks[g := k.acks[g]]);
      if cloned {
        var m := ServerEvent(g, h.events, if wantsAck then Some(ServerAckId(g, h.acks[g].next + 1)) else None);
        PostKeepsBase(q, m);
        SameCoreKeepsBase(Host.Post(q, m), k);
      } else {
        PostFailureKeepsBase(q, g, reported);
        SameCoreKeepsBase(Host.PostFailure(q, g, reported), k);
      }
    }
  }

  lemma HandleClientEventKeepsBase(h: Host.State, g: nat, emission: nat, ackId: Option<AckId>, emitted: bool)
    requires HostBase(h) && Host.Live(h, g)
    ensures var k := Host.HandleClientEvent(h, g, emission, ackId, emitted);
            HostBase(k) && Extends(h, k) && k.requests == h.requests
  {
    hide HostShape, HostMessagesOf, EndingsOf;
    var k := Host.HandleClientEvent(h, g, emission, ackId, emitted);
    AcksKeepBase(h, g, k.acks[g]);
    SameCoreKeepsBase(h.(acks := h.acks[g := k.acks[g]]), k);
  }

  lemma AnswerClientEventKeepsBase(h: Host.State, r: nat, payload: Payload, cloned: bool, reported: bool)
    requires HostBase(h) && r < |h.references| && Host.Known(h, h.references[r].generation)
    ensures var k := Host.AnswerClientEvent(h, r, payload, cloned, reported);
            HostBase(k) && Extends(h, k) && k.requests == h.requests
  {
    hide HostShape, HostMessagesOf, EndingsOf;
    var g := h.references[r].generation;
    if r in h.acks[g].client {
      KnownRequest(h, g);
      var d := h.acks[g].(client := h.acks[g].client - {r});
      AcksKeepBase(h, g, d);
      var q := h.(acks := h.acks[g := d]);
      var k := Host.AnswerClientEvent(h, r, payload, cloned, reported);
      if cloned {
        var m := AckClient(g, h.references[r].ackId, payload);
        PostKeepsBase(q, m);
        SameCoreKeepsBase(Host.Post(q, m), k);
      } else {
        PostFailureKeepsBase(q, g, reported);
        SameCoreKeepsBase(Host.PostFailure(q, g, reported), k);
      }
    }
  }

  lemma HandleServerAckKeepsBase(h: Host.State, g: nat, ackId: AckId, payload: Payload)
    requires HostBase(h) && Host.Live(h, g)
    ensures var k := Host.HandleServerAck(h, g, ackId, payload);
            HostBase(k) && Extends(h, k) && k.requests == h.requests
  {
    hide HostShape, HostMessagesOf, EndingsOf;
    var k := Host.HandleServerAck(h, g, ackId, payload);
    AcksKeepBase(h, g, k.acks[g]);
    SameCoreKeepsBase(h.(acks := h.acks[g := k.acks[g]]), k);
  }

  /** No protocol error: every message of the page names what the host issued. */
  lemma HandleMessageKeepsBase(h: Host.State, m: PageMessage, sequence: nat, accepted: bool, emitted: bool)
    requires HostBase(h) && FromPage(m, sequence, h.requests)
    requires m.Connect? ==> forall k :: 0 <= k < |h.requests| ==> h.requests[k] < m.request
    ensures var k := Host.HandleMessage(h, m, accepted, emitted);
            && HostBase(k) && Extends(h, k)
            && k.requests == if m.Connect? then h.requests + [m.request] else h.requests
  {
    hide HostShape, HostMessagesOf, EndingsOf;
    NextIsNew(h);
    if m.Connect? {
      ReceiveConnectKeepsBase(h, m.request, accepted);
    } else if h.active.Some? {
      ActiveIsLive(h);
      KnownRequest(h, h.active.value);
    }
    if !m.Connect? && h.active.Some? && m.generation == h.active.value {
      var g := h.active.value;
      ActiveIsLive(h);
      match m
      case ClientEvent(_, emission, ackId) => HandleClientEventKeepsBase(h, g, emission, ackId, emitted);
      case AckServer(_, ackId, payload) => HandleServerAckKeepsBase(h, g, ackId, payload);
      case Disconnect(_, _) =>
        FinishKeepsBase(h, g, true);
        FinishExtends(h, g, true);
    }
  }

  lemma CloseKeepsBase(h: Host.State)
    requires HostBase(h)
    ensures var k := Host.CloseCall(h); HostBase(k) && Extends(h, k) && k.requests == h.requests
  {
    hide HostShape, HostMessagesOf, EndingsOf;
    var q := h.(closed := true);
    SameCoreKeepsBase(h, q);
    if !h.closed && h.active.Some? {
      ActiveIsLive(q);
      FinishKeepsBase(q, h.active.value, true);
      FinishExtends(q, h.active.value, true);
    }
  }
}
