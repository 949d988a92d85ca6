/** Acknowledgements and events of the bridge, end to end. */
module BridgeAcks {
  // Acknowledgements reach the callback of the very emission they answer, at most once, and
  // listeners see only what the current connection posted.

  import opened Common
  import opened BridgeMessages
  import opened BridgeSystem
  import opened BridgeInvariant
  import opened BridgeSafety
  import BridgeHostSteps
  import Buffer = BridgeBuffer
  import Client = BridgeClientAcks
  import Worker = BridgeHostAcks
  import Listener = BridgePageAcks
  import Page = BridgePage
  import Host = BridgeHost

  /** Some acknowledgement function made for this emission was called with this payload. */
  ghost predicate AnsweredByHost(h: Host.State, emission: nat, payload: Payload) {
    exists r :: 0 <= r < |h.references| && h.references[r].emission == emission
             && r in h.answers && h.answers[r] == payload
  }

  /** Some acknowledgement function made for this server event was called with this payload. */
  ghost predicate AnsweredByPage(p: Page.State, event: nat, payload: Payload) {
    exists r :: 0 <= r < |p.references| && p.references[r].event == event
             && r in p.answers && p.answers[r] == payload
  }

  ghost predicate ClientRuns(ran: seq<Page.Ran>, h: Host.State) {
    forall i :: 0 <= i < |ran| ==> AnsweredByHost(h, ran[i].callback, ran[i].payload)
  }

  ghost predicate ServerRuns(ran: seq<Host.Ran>, p: Page.State) {
    forall i :: 0 <= i < |ran| ==> AnsweredByPage(p, ran[i].callback, ran[i].payload)
  }

  ghost predicate Arrived(emission: nat, posted: seq<PageMessage>, read: nat) {
    exists i :: 0 <= i < read && i < |posted| && posted[i].ClientEvent? && posted[i].emission == emission
  }

  /** The server is given each emission at most once, and only ones the page posted. */
  ghost predicate Delivered(received: seq<nat>, posted: seq<PageMessage>, read: nat) {
    && (forall k, l :: 0 <= k < l < |received| ==> received[k] != received[l])
    && (forall k :: 0 <= k < |received| ==> Arrived(received[k], posted, read))
  }

  ghost predicate PageAcks(p: Page.State, requests: seq<nat>) {
    Buffer.Conserved(p) && Client.AckSide(p, requests) && Listener.Open(p) && Listener.Truthful(p)
  }

  ghost predicate Crossing(s: System) {
    var p, h := s.page, s.host;
    && Worker.AllBorn(h.references, p.posted, s.hostRead)
    && Listener.AllBorn(p.references, h.posted, s.pageRead)
    && Listener.Shown(p.dispatched, h.posted, s.pageRead, h.requests)
    && Delivered(h.received, p.posted, s.hostRead)
  }

  ghost predicate Acks(s: System) {
    && PageAcks(s.page, s.host.requests)
    && Worker.AckSide(s.host)
    && Crossing(s)
    && ClientRuns(s.page.ran, s.host)
    && ServerRuns(s.host.ran, s.page)
  }

  /** The only host ops that answer a client event only add answers, so old runs stay explained. */
  lemma ClientRunsSurvive(ran: seq<Page.Ran>, h: Host.State, k: Host.State)
    requires ClientRuns(ran, h) && Worker.Remembers(h, k)
    ensures ClientRuns(ran, k)
  {
    forall i | 0 <= i < |ran|
      ensures AnsweredByHost(k, ran[i].callback, ran[i].payload)
    {
      var r :| 0 <= r < |h.references| && h.references[r].emission == ran[i].callback
            && r in h.answers && h.answers[r] == ran[i].payload;
      assert k.references[r] == h.references[r];
    }
  }

  ghost predicate PageRemembers(p: Page.State, q: Page.State) {
    && p.references <= q.references
    && (forall r :: r in p.answers ==> r in q.answers && q.answers[r] == p.answers[r])
  }

  lemma ServerRunsSurvive(ran: seq<Host.Ran>, p: Page.State, q: Page.State)
    requires ServerRuns(ran, p) && PageRemembers(p, q)
    ensures ServerRuns(ran, q)
  {
    forall i | 0 <= i < |ran|
      ensures AnsweredByPage(q, ran[i].callback, ran[i].payload)
    {
      var r :| 0 <= r < |p.references| && p.references[r].event == ran[i].callback
            && r in p.answers && p.answers[r] == ran[i].payload;
      assert q.references[r] == p.references[r];
    }
  }

  lemma HostBornLater(
    references: seq<Host.Reference>, posted: seq<PageMessage>, longer: seq<PageMessage>, read: nat, next: nat)
    requires Worker.AllBorn(references, posted, read) && posted <= longer && read <= next
    ensures Worker.AllBorn(references, longer, next)
  {
    forall r | 0 <= r < |references|
      ensures Worker.Born(references[r], longer, next)
    {
      var i :| 0 <= i < read && i < |posted|
            && posted[i] == ClientEvent(references[r].generation, references[r].emission, Some(references[r].ackId));
      assert longer[i] == posted[i];
    }
  }

  lemma DeliveredLater(
    received: seq<nat>, posted: seq<PageMessage>, longer: seq<PageMessage>, read: nat, next: nat)
    requires Delivered(received, posted, read) && posted <= longer && read <= next
    ensures Delivered(received, longer, next)
  {
    forall k | 0 <= k < |received|
      ensures Arrived(received[k], longer, next)
    {
      assert Arrived(received[k], posted, read);
      var i :| 0 <= i < read && i < |posted| && posted[i].ClientEvent? && posted[i].emission == received[k];
      assert longer[i] == posted[i];
    }
  }

  /** An acknowledgement names the emission whose id it carries. */
  lemma RightCallback(s: System, m: HostMessage)
    requires Acks(s) && m in s.host.posted && m.AckClient? && m.ackId in s.page.pendingClientAcks
    ensures AnsweredByHost(s.host, s.page.pendingClientAcks[m.ackId], m.payload)
  {
    hide Buffer.Conserved, Listener.Open, Listener.Truthful, ClientRuns, ServerRuns, Delivered, Listener.Shown;
    var p, h := s.page, s.host;
    assert p.pendingClientAcks[m.ackId] == p.issued[m.ackId];
    assert Worker.Answered(h, m.ackId, m.payload);
    var r :| 0 <= r < |h.references| && h.references[r].ackId == m.ackId && r in h.answers && h.answers[r] == m.payload;
    assert Worker.Born(h.references[r], p.posted, s.hostRead);
    var i :| 0 <= i < s.hostRead && i < |p.posted|
          && p.posted[i] == ClientEvent(h.references[r].generation, h.references[r].emission, Some(h.references[r].ackId));
    assert p.posted[i].ClientEvent?;
    assert p.issued[m.ackId] == h.references[r].emission;
  }

  lemma RightServerCallback(s: System, m: PageMessage, g: nat)
    requires Acks(s) && m in s.page.posted && m.AckServer?
    requires g in s.host.acks && m.ackId in s.host.acks[g].server
    ensures AnsweredByPage(s.page, s.host.acks[g].server[m.ackId], m.payload)
  {
    hide Buffer.Conserved, Client.AckSide, Worker.Open, Worker.Truthful, Worker.RunsOnce, ClientRuns, ServerRuns,
         Delivered, Listener.Shown, Listener.Open;
    var p, h := s.page, s.host;
    assert h.acks[g].server[m.ackId] == h.issued[m.ackId];
    assert Listener.Answered(p, m.ackId, m.payload);
    var r :| 0 <= r < |p.references| && p.references[r].ackId == m.ackId && r in p.answers && p.answers[r] == m.payload;
    assert Listener.Born(p.references[r], h.posted, s.pageRead);
    var i :| 0 <= i < s.pageRead && i < |h.posted|
          && h.posted[i] == ServerEvent(p.references[r].generation, p.references[r].event, Some(p.references[r].ackId));
    assert h.posted[i].ServerEvent?;
    assert h.issued[m.ackId] == p.references[r].event;
  }

  /** What crosses the channels stays explained when both sides move on. */
  lemma CrossingLater(s: System, t: System)
    requires Crossing(s)
    requires s.page.posted <= t.page.posted && s.host.posted <= t.host.posted
    requires s.hostRead <= t.hostRead && s.pageRead <= t.pageRead && s.host.requests <= t.host.requests
    requires t.host.references == s.host.references && t.page.references == s.page.references
    requires t.page.dispatched == s.page.dispatched && t.host.received == s.host.received
    ensures Crossing(t)
  {
    hide Worker.AllBorn, Listener.AllBorn, Listener.Shown, Delivered;
    HostBornLater(s.host.references, s.page.posted, t.page.posted, s.hostRead, t.hostRead);
    Listener.BornLater(s.page.references, s.host.posted, t.host.posted, s.pageRead, t.pageRead);
    Listener.ShownLater(s.page.dispatched, s.host.posted, t.host.posted, s.pageRead, t.pageRead,
                        s.host.requests, t.host.requests);
    DeliveredLater(s.host.received, s.page.posted, t.page.posted, s.hostRead, t.hostRead);
  }

  /** A step of the page that neither shows an event nor runs a callback. */
  lemma SilentPageStep(s: System, t: System)
    requires Acks(s) && t == s.(page := t.page, pageRead := t.pageRead) && s.pageRead <= t.pageRead
    requires Listener.Silent(s.page, t.page)
    requires Buffer.Conserved(t.page) && Client.AckSide(t.page, t.host.requests)
    ensures Acks(t)
  {
    hide Buffer.Conserved, Client.AckSide, Worker.AckSide, Crossing, ClientRuns, ServerRuns, Listener.Open, Listener.Truthful;
    Listener.QuietKeeps(s.page, t.page);
    CrossingLater(s, t);
    ServerRunsSurvive(s.host.ran, s.page, t.page);
  }

  lemma PageCallKeepsAcks(s: System, e: Event)
    requires Base(s) && Acks(s)
    requires e.PageConnect? || e.PageDisconnect? || e.PageEmit? || e.PageResume?
    ensures Acks(Step(s, e))
  {
    var p, requests := s.page, s.host.requests;
    assert forall i :: 0 <= i < |requests| ==> requests[i] <= p.requestSequence;
    assert PageShape(p) && (p.generation.Some? ==> 1 <= p.generation.value <= |requests|);
    hide Base, Acks, PageShape, Buffer.Conserved, Client.AckSide, Listener.Silent;
    assert PageAcks(p, requests) by { PageAcksOf(s); }
    match e {
      case PageConnect(cloned) =>
        Listener.ConnectIsSilent(p, cloned);
        Buffer.ConnectConserves(p, cloned);
        Client.ConnectKeepsAckSide(p, cloned, requests);
      case PageDisconnect =>
        Listener.DisconnectIsSilent(p);
        Buffer.DisconnectConserves(p);
        Client.DisconnectKeepsAckSide(p, requests);
      case PageEmit(wantsAck, cloned) =>
        Listener.EmitIsSilent(p, wantsAck, cloned);
        Buffer.EmitConserves(p, wantsAck, cloned);
        Client.EmitKeepsAckSide(p, wantsAck, cloned, requests);
      case PageResume(failing) =>
        Listener.ResumeIsSilent(p, failing);
        Buffer.ResumeConserves(p, failing);
        Client.ResumeKeepsAckSide(p, failing, requests);
    }
    SilentPageStep(s, Step(s, e));
  }

  lemma PageAcksOf(s: System)
    requires Acks(s)
    ensures PageAcks(s.page, s.host.requests) && Worker.AckSide(s.host) && Crossing(s)
  {}

  lemma PageAcknowledgeKeepsAcks(s: System, r: nat, payload: Payload, cloned: bool)
    requires Acks(s)
    ensures Acks(Step(s, PageAcknowledge(r, payload, cloned)))
  {
    hide Buffer.Conserved, Client.AckSide, Worker.AckSide, Crossing, ClientRuns, ServerRuns, Listener.Truthful;
    var p := s.page;
    if r < |p.references| {
      var q := Page.AcknowledgeCall(p, r, payload, cloned);
      Listener.AcknowledgeKeeps(p, r, payload, cloned);
      Buffer.AcknowledgeConserves(p, r, payload, cloned);
      Client.AcknowledgeKeepsAckSide(p, r, payload, cloned, s.host.requests);
      CrossingLater(s, s.(page := q));
      ServerRunsSurvive(s.host.ran, p, q);
    }
  }

  lemma PageReceiveKeepsAcks(s: System, failing: nat)
    requires Base(s) && Acks(s)
    ensures Acks(Step(s, PageReceive(failing)))
  {
    var p, h := s.page, s.host;
    if p.frames == [] && s.pageRead < |h.posted| {
      var m := h.posted[s.pageRead];
      NextFromHost(h, s.pageRead);
      assert PageShape(p);
      hide Base, Acks, PageShape, Buffer.Conserved, Client.AckSide, Listener.Silent, Page.Receive;
      PageAcksOf(s);
      Buffer.ReceiveConserves(p, m, failing);
      Client.ReceiveKeepsAckSide(p, m, failing, h.requests, h.connections, h.active);
      if m.ServerEvent? {
        PageShowsKeepsAcks(s, failing);
      } else if m.AckClient? {
        PageRunsKeepsAcks(s, failing);
      } else {
        Listener.ReceiveIsSilent(p, m, failing);
        SilentPageStep(s, Step(s, PageReceive(failing)));
      }
    }
  }

  lemma EventFacts(s: System, i: nat)
    requires Base(s) && i < |s.host.posted| && s.host.posted[i].ServerEvent?
    requires s.page.generation == Some(s.host.posted[i].generation)
    ensures var g := s.host.posted[i].generation;
            1 <= g <= |s.host.requests| && s.host.requests[g - 1] == s.page.requestSequence
  {}

  lemma PageShowsKeepsAcks(s: System, failing: nat)
    requires Base(s) && Acks(s) && s.page.frames == [] && s.pageRead < |s.host.posted|
    requires s.host.posted[s.pageRead].ServerEvent?
    requires var q := Page.Receive(s.page, s.host.posted[s.pageRead], failing);
             Buffer.Conserved(q) && Client.AckSide(q, s.host.requests)
    ensures Acks(Step(s, PageReceive(failing)))
  {
    hide Base, Buffer.Conserved, Client.AckSide, Worker.AckSide, Crossing, ClientRuns, ServerRuns,
         Listener.Open, Listener.Truthful;
    var p, h := s.page, s.host;
    var m := h.posted[s.pageRead];
    var q := Page.Receive(p, m, failing);
    if q == p {
      Listener.PlainIsSilent(p, p);
      SilentPageStep(s, s.(pageRead := s.pageRead + 1));
    } else {
      EventFacts(s, s.pageRead);
      Listener.ReceiveServerEventKeeps(p, m.generation, m.event, m.serverAck);
      ShownCrossing(s);
      ServerRunsSurvive(h.ran, p, q);
    }
  }

  lemma ShownCrossing(s: System)
    requires Crossing(s) && Worker.AckSide(s.host) && s.pageRead < |s.host.posted|
    requires s.host.posted[s.pageRead].ServerEvent?
    requires var g := s.host.posted[s.pageRead].generation;
             1 <= g <= |s.host.requests| && s.host.requests[g - 1] == s.page.requestSequence
    ensures var m := s.host.posted[s.pageRead];
            var q := Page.ReceiveServerEvent(s.page, m.generation, m.event, m.serverAck);
            Crossing(s.(page := q, pageRead := s.pageRead + 1))
  {
    var p, h := s.page, s.host;
    assert forall i, j :: 0 <= i < j < |h.posted| && h.posted[i].ServerEvent? && h.posted[j].ServerEvent? ==>
             h.posted[i].event < h.posted[j].event;
    hide Worker.AckSide, Listener.AllBorn, Listener.Shown, Worker.AllBorn, Delivered;
    Listener.BornNext(p, h.posted, s.pageRead);
    Listener.ShowNext(p, h.posted, s.pageRead, h.requests);
  }

  lemma PageRunsKeepsAcks(s: System, failing: nat)
    requires Base(s) && Acks(s) && s.page.frames == [] && s.pageRead < |s.host.posted|
    requires s.host.posted[s.pageRead].AckClient?
    requires var q := Page.Receive(s.page, s.host.posted[s.pageRead], failing);
             Buffer.Conserved(q) && Client.AckSide(q, s.host.requests)
    ensures Acks(Step(s, PageReceive(failing)))
  {
    hide Base, Buffer.Conserved, Client.AckSide, Worker.AckSide, Crossing, ServerRuns, Listener.Open, Listener.Truthful;
    var p, h := s.page, s.host;
    var m := h.posted[s.pageRead];
    var q := Page.Receive(p, m, failing);
    if q == p {
      Listener.PlainIsSilent(p, p);
      SilentPageStep(s, s.(pageRead := s.pageRead + 1));
    } else {
      Listener.ReceiveAckIsQuiet(p, m.ackId, m.payload);
      Listener.QuietKeeps(p, q);
      RightCallback(s, m);
      CrossingLater(s, s.(page := q, pageRead := s.pageRead + 1));
      ServerRunsSurvive(h.ran, p, q);
    }
  }

  /** A step of the host that moves no acknowledgement. */
  lemma QuietHostStep(s: System, k: Host.State, next: nat)
    requires Acks(s) && Worker.Quiet(s.host, k) && s.host.requests <= k.requests && s.hostRead <= next
    ensures Acks(s.(host := k, hostRead := next))
  {
    hide Buffer.Conserved, Client.AckSide, Worker.AckSide, Crossing, ClientRuns, ServerRuns, Listener.Open, Listener.Truthful;
    Client.GrowthKeepsAckSide(s.page, s.host.requests, k.requests);
    Worker.QuietKeepsAckSide(s.host, k);
    CrossingLater(s, s.(host := k, hostRead := next));
    ClientRunsSurvive(s.page.ran, s.host, k);
  }

  lemma HostSocketKeepsAcks(s: System, e: Event)
    requires Base(s) && Acks(s)
    requires e.HostSocketConnect? || e.HostSocketConnectError? || e.HostSocketDisconnect? || e.HostClose?
    ensures Acks(Step(s, e))
  {
    hide Acks, Worker.Quiet, HostBase, PageSide, Left;
    var h := s.host;
    match e {
      case HostSocketConnect(g, cloned, reported) =>
        if Host.Known(h, g) {
          Worker.SocketConnectIsQuiet(h, g, cloned, reported);
          BridgeHostSteps.SocketConnectKeepsBase(h, g, cloned, reported);
        }
      case HostSocketConnectError(g) =>
        if Host.Known(h, g) {
          Worker.SocketConnectErrorIsQuiet(h, g);
          BridgeHostSteps.SocketConnectErrorKeepsBase(h, g);
        }
      case HostSocketDisconnect(g) =>
        if Host.Known(h, g) {
          Worker.FinishIsQuiet(h, g, true);
          BridgeHostSteps.FinishExtends(h, g, true);
        }
      case HostClose =>
        Worker.CloseIsQuiet(h);
        BridgeHostSteps.CloseKeepsBase(h);
    }
    var k := Step(s, e).host;
    if k != h { QuietHostStep(s, k, s.hostRead); }
  }

  lemma HostForwardKeepsAcks(s: System, g: nat, wantsAck: bool, cloned: bool, reported: bool)
    requires Acks(s) && Host.Known(s.host, g)
    ensures Acks(Step(s, HostServerEvent(g, wantsAck, cloned, reported)))
  {
    hide Buffer.Conserved, Client.AckSide, Worker.AckSide, Crossing, ClientRuns, ServerRuns, Listener.Open, Listener.Truthful;
    var k := Host.ForwardServerEvent(s.host, g, wantsAck, cloned, reported);
    Worker.ForwardKeepsAckSide(s.host, g, wantsAck, cloned, reported);
    CrossingLater(s, s.(host := k));
    ClientRunsSurvive(s.page.ran, s.host, k);
  }

  lemma HostAnswerKeepsAcks(s: System, r: nat, payload: Payload, cloned: bool, reported: bool)
    requires Acks(s) && r < |s.host.references| && Host.Known(s.host, s.host.references[r].generation)
    ensures Acks(Step(s, HostAnswer(r, payload, cloned, reported)))
  {
    hide Buffer.Conserved, Client.AckSide, Worker.AckSide, Crossing, ClientRuns, ServerRuns, Listener.Open, Listener.Truthful;
    var k := Host.AnswerClientEvent(s.host, r, payload, cloned, reported);
    Worker.AnswerKeepsAckSide(s.host, r, payload, cloned, reported);
    CrossingLater(s, s.(host := k));
    ClientRunsSurvive(s.page.ran, s.host, k);
  }

  lemma HostShowsCrossing(s: System, g: nat, emitted: bool)
    requires Crossing(s) && Host.Known(s.host, g) && s.hostRead < |s.page.posted|
    requires s.page.posted[s.hostRead].ClientEvent? && s.page.posted[s.hostRead].generation == g
    requires Client.Carried(s.page.posted, s.page.issued, s.page.sent)
    ensures var m := s.page.posted[s.hostRead];
            var k := Host.HandleClientEvent(s.host, g, m.emission, m.clientAck, emitted);
            Crossing(s.(host := k, hostRead := s.hostRead + 1))
  {
    hide Listener.AllBorn, Listener.Shown;
    var p, h := s.page, s.host;
    var m := p.posted[s.hostRead];
    var k := Host.HandleClientEvent(h, g, m.emission, m.clientAck, emitted);
    HostBornLater(h.references, p.posted, p.posted, s.hostRead, s.hostRead + 1);
    DeliveredLater(h.received, p.posted, p.posted, s.hostRead, s.hostRead + 1);
    if m.clientAck.Some? {
      assert Worker.Born(Host.Reference(g, m.clientAck.value, m.emission), p.posted, s.hostRead + 1);
    }
    ReceivedOnce(h.received, p.posted, s.hostRead, p.issued, p.sent);
  }

  lemma ReceivedOnce(received: seq<nat>, posted: seq<PageMessage>, read: nat, issued: map<AckId, nat>, sent: seq<nat>)
    requires Delivered(received, posted, read) && Client.Carried(posted, issued, sent)
    requires read < |posted| && posted[read].ClientEvent?
    ensures Delivered(received + [posted[read].emission], posted, read + 1)
  {
    DeliveredLater(received, posted, posted, read, read + 1);
    assert Arrived(posted[read].emission, posted, read + 1);
    forall k | 0 <= k < |received|
      ensures received[k] != posted[read].emission
    {
      assert Arrived(received[k], posted, read);
    }
  }

  lemma HostEventKeepsAcks(s: System, g: nat, emitted: bool)
    requires Acks(s) && Host.Known(s.host, g) && s.hostRead < |s.page.posted|
    requires s.page.posted[s.hostRead].ClientEvent? && s.page.posted[s.hostRead].generation == g
    ensures var m := s.page.posted[s.hostRead];
            Acks(s.(host := Host.HandleClientEvent(s.host, g, m.emission, m.clientAck, emitted), hostRead := s.hostRead + 1))
  {
    assert Client.Carried(s.page.posted, s.page.issued, s.page.sent);
    hide Buffer.Conserved, Client.AckSide, Worker.AckSide, Crossing, ClientRuns, ServerRuns,
         Listener.Open, Listener.Truthful;
    var m := s.page.posted[s.hostRead];
    var k := Host.HandleClientEvent(s.host, g, m.emission, m.clientAck, emitted);
    Worker.HandleClientEventKeepsAckSide(s.host, g, m.emission, m.clientAck, emitted);
    HostShowsCrossing(s, g, emitted);
    ClientRunsSurvive(s.page.ran, s.host, k);
  }

  lemma HostRunsKeepsAcks(s: System, g: nat)
    requires Acks(s) && Host.Known(s.host, g) && s.hostRead < |s.page.posted|
    requires s.page.posted[s.hostRead].AckServer?
    ensures var m := s.page.posted[s.hostRead];
            Acks(s.(host := Host.HandleServerAck(s.host, g, m.ackId, m.payload), hostRead := s.hostRead + 1))
  {
    hide Buffer.Conserved, Client.AckSide, Worker.AckSide, Crossing, ClientRuns, Listener.Open, Listener.Truthful;
    var m := s.page.posted[s.hostRead];
    var k := Host.HandleServerAck(s.host, g, m.ackId, m.payload);
    Worker.HandleServerAckKeepsAckSide(s.host, g, m.ackId, m.payload);
    CrossingLater(s, s.(host := k, hostRead := s.hostRead + 1));
    ClientRunsSurvive(s.page.ran, s.host, k);
    if k != s.host { RightServerCallback(s, m, g); }
  }

  lemma HostReceiveKeepsAcks(s: System, accepted: bool, emitted: bool)
    requires Base(s) && Acks(s)
    ensures Acks(Step(s, HostReceive(accepted, emitted)))
  {
    hide Acks, HostBase, PageSide, Left, HostShape, Worker.Quiet;
    var p, h := s.page, s.host;
    if !h.closed && s.hostRead < |p.posted| {
      var m := p.posted[s.hostRead];
      NextFromPage(p, h.requests, h.connections, s.hostRead);
      BridgeHostSteps.HandleMessageKeepsBase(h, m, p.requestSequence, accepted, emitted);
      var k := Host.HandleMessage(h, m, accepted, emitted);
      ShapeOf(h);
      if m.Connect? {
        Worker.ReceiveConnectIsQuiet(h, m.request, accepted);
        QuietHostStep(s, k, s.hostRead + 1);
      } else if h.active.Some? && m.generation == h.active.value {
        var g := h.active.value;
        BridgeHostSteps.ActiveIsLive(h);
        OwnerIsRight(h, m, p.requestSequence);
        match m
        case ClientEvent(_, _, _) => HostEventKeepsAcks(s, g, emitted);
        case AckServer(_, _, _) => HostRunsKeepsAcks(s, g);
        case Disconnect(_, _) =>
          Worker.FinishIsQuiet(h, g, true);
          QuietHostStep(s, k, s.hostRead + 1);
      } else {
        Stale(h, m, p.requestSequence, accepted, emitted);
        QuietRefl(h);
        QuietHostStep(s, k, s.hostRead + 1);
      }
    }
  }

  lemma ShapeOf(h: Host.State)
    requires HostBase(h)
    ensures HostShape(h)
  {}

  lemma QuietRefl(h: Host.State)
    ensures Worker.Quiet(h, h)
  {}

  lemma OwnerIsRight(h: Host.State, m: PageMessage, sequence: nat)
    requires HostShape(h) && FromPage(m, sequence, h.requests) && !m.Connect?
    requires h.active == Some(m.generation)
    ensures m.Disconnect? ==> m.request == h.connections[m.generation].request
  {}

  /** A message of an earlier generation is ignored. */
  lemma Stale(h: Host.State, m: PageMessage, sequence: nat, accepted: bool, emitted: bool)
    requires HostShape(h) && FromPage(m, sequence, h.requests) && !m.Connect? && h.active != Some(m.generation)
    ensures Host.HandleMessage(h, m, accepted, emitted) == h
  {}

  lemma StepKeepsAcks(s: System, e: Event)
    requires Base(s) && Acks(s)
    ensures Acks(Step(s, e))
  {
    hide Base, Acks;
    match e
    case PageConnect(_) => PageCallKeepsAcks(s, e);
    case PageDisconnect => PageCallKeepsAcks(s, e);
    case PageEmit(_, _) => PageCallKeepsAcks(s, e);
    case PageResume(_) => PageCallKeepsAcks(s, e);
    case PageAcknowledge(r, payload, cloned) => PageAcknowledgeKeepsAcks(s, r, payload, cloned);
    case PageReceive(failing) => PageReceiveKeepsAcks(s, failing);
    case HostReceive(accepted, emitted) => HostReceiveKeepsAcks(s, accepted, emitted);
    case HostServerEvent(g, wantsAck, cloned, reported) =>
      if Host.Known(s.host, g) { HostForwardKeepsAcks(s, g, wantsAck, cloned, reported); }
    case HostAnswer(r, payload, cloned, reported) =>
      if r < |s.host.references| && Host.Known(s.host, s.host.references[r].generation) {
        HostAnswerKeepsAcks(s, r, payload, cloned, reported);
      }
    case _ => HostSocketKeepsAcks(s, e);
  }

  lemma {:induction false} RunKeepsAcks(s: System, events: seq<Event>)
    requires Base(s) && Acks(s)
    ensures Acks(Run(s, events))
    decreases |events|
  {
    hide Base, Acks;
    if events != [] {
      StepKeepsBase(s, events[0]);
      StepKeepsAcks(s, events[0]);
      RunKeepsAcks(Step(s, events[0]), events[1..]);
    }
  }

  lemma AcksInitially()
    ensures Acks(INITIAL)
  {}

  lemma ReachedAcks(events: seq<Event>)
    ensures Acks(Reached(events))
  {
    hide Acks;
    BaseInitially();
    AcksInitially();
    RunKeepsAcks(INITIAL, events);
  }

  /** No callback of the page runs twice, and each runs with an answer given for its own emission. */
  lemma ClientAckOnceAndRight(events: seq<Event>)
    ensures var s := Reached(events);
            && (forall i, j :: 0 <= i < j < |s.page.ran| ==> s.page.ran[i].callback != s.page.ran[j].callback)
            && (forall i :: 0 <= i < |s.page.ran| ==>
                  AnsweredByHost(s.host, s.page.ran[i].callback, s.page.ran[i].payload))
  {
    hide Reached;
    ReachedAcks(events);
  }

  /** The same for the callbacks of the server. */
  lemma ServerAckOnceAndRight(events: seq<Event>)
    ensures var s := Reached(events);
            && (forall i, j :: 0 <= i < j < |s.host.ran| ==> s.host.ran[i].callback != s.host.ran[j].callback)
            && (forall i :: 0 <= i < |s.host.ran| ==>
                  AnsweredByPage(s.page, s.host.ran[i].callback, s.host.ran[i].payload))
  {
    hide Reached;
    ReachedAcks(events);
  }

  /**
    Listeners see server events in the order they were forwarded, none twice, and each
    one was posted by the host connection made for the CONNECT that was then the latest.
   */
  lemma ListenersSeeTheCurrentConnection(events: seq<Event>)
    ensures var s := Reached(events);
            Listener.Shown(s.page.dispatched, s.host.posted, s.pageRead, s.host.requests)
  {
    hide Reached;
    ReachedAcks(events);
  }

  /** The server is given every emission at most once, and only emissions the page sent. */
  lemma EmissionsArriveOnce(events: seq<Event>)
    ensures var s := Reached(events);
            Delivered(s.host.received, s.page.posted, s.hostRead)
  {
    hide Reached;
    ReachedAcks(events);
  }

  /** Each emission so far is waiting, sent or dropped, once; what waits keeps its order. */
  lemma EmissionsAreConserved(events: seq<Event>)
    ensures Buffer.Conserved(Reached(events).page)
  {
    hide Reached;
    ReachedAcks(events);
  }
}
