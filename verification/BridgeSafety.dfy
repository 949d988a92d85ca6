/** Protocol errors, ended connections, half-open sessions. */
module BridgeSafety {
  import opened Common
  import opened BridgeMessages
  import opened BridgeSystem
  import opened BridgeInvariant
  import opened BridgeHostSteps
  import opened BridgePageSteps
  import Page = BridgePage
  import Host = BridgeHost

  /** A step of the host that takes no CONNECT keeps what ties the page to it. */
  lemma SideSurvives(p: Page.State, h: Host.State, k: Host.State, read: nat, next: nat)
    requires PageSide(p, h.requests, h.connections, read) && Extends(h, k) && k.requests == h.requests
    requires read <= next <= |p.posted|
    ensures PageSide(p, k.requests, k.connections, next)
  {}

  lemma SideSurvivesConnect(p: Page.State, h: Host.State, k: Host.State, read: nat)
    requires PageSide(p, h.requests, h.connections, read) && Extends(h, k)
    requires read < |p.posted| && p.posted[read].Connect? && k.requests == h.requests + [p.posted[read].request]
    ensures PageSide(p, k.requests, k.connections, read + 1)
  {}

  lemma LeftSurvives(posted: seq<HostMessage>, longer: seq<HostMessage>, read: nat, g: Option<nat>, g': Option<nat>)
    requires Left(posted, read, g) && posted <= longer && read <= |posted| && (g' == g || g' == None)
    ensures Left(longer, read, g')
  {}

  lemma HostStepKeepsBase(s: System, k: Host.State, next: nat)
    requires Base(s) && HostBase(k) && Extends(s.host, k)
    requires s.hostRead <= next <= |s.page.posted|
    requires k.requests == s.host.requests
          || (next == s.hostRead + 1 && s.page.posted[s.hostRead].Connect?
              && k.requests == s.host.requests + [s.page.posted[s.hostRead].request])
    ensures Base(s.(host := k, hostRead := next))
  {
    hide HostBase, PageSide, Left;
    if k.requests == s.host.requests {
      SideSurvives(s.page, s.host, k, s.hostRead, next);
    } else {
      SideSurvivesConnect(s.page, s.host, k, s.hostRead);
    }
    LeftSurvives(s.host.posted, k.posted, s.pageRead, s.page.generation, s.page.generation);
  }

  lemma PageStepKeepsBase(s: System, q: Page.State)
    requires Base(s) && PageSide(q, s.host.requests, s.host.connections, s.hostRead)
    requires KeepsOrDrops(s.page, q)
    ensures Base(s.(page := q))
  {
    hide HostBase, PageSide, Left;
    LeftSurvives(s.host.posted, s.host.posted, s.pageRead, s.page.generation, q.generation);
  }

  lemma NextFromPage(p: Page.State, requests: seq<nat>, records: Records, read: nat)
    requires PageSide(p, requests, records, read) && read < |p.posted|
    ensures FromPage(p.posted[read], p.requestSequence, requests)
    ensures p.posted[read].Connect? ==> forall k :: 0 <= k < |requests| ==> requests[k] < p.posted[read].request
  {}

  lemma NextFromHost(h: Host.State, i: nat)
    requires HostBase(h) && i < |h.posted|
    ensures FromHost(h.posted[i], h.requests, h.connections, h.active)
  {}

  lemma HostReceiveKeepsBase(s: System, accepted: bool, emitted: bool)
    requires Base(s)
    ensures Base(Step(s, HostReceive(accepted, emitted)))
  {
    hide HostBase, PageSide, Left;
    var p, h := s.page, s.host;
    if !h.closed && s.hostRead < |p.posted| {
      NextFromPage(p, h.requests, h.connections, s.hostRead);
      var m := p.posted[s.hostRead];
      HandleMessageKeepsBase(h, m, p.requestSequence, accepted, emitted);
      HostStepKeepsBase(s, Host.HandleMessage(h, m, accepted, emitted), s.hostRead + 1);
    }
  }

  /** The CONNECTED a page reads was not preceded by the end of that generation. */
  lemma LeftAfterReceive(posted: seq<HostMessage>, read: nat, g: Option<nat>, g': Option<nat>)
    requires Left(posted, read, g) && NothingAfterTerminal(posted) && read < |posted|
    requires g' == None || g' == g || (posted[read].Connected? && g' == Some(posted[read].generation))
    requires posted[read].Disconnected? ==> g' != Some(posted[read].generation)
    ensures Left(posted, read + 1, g')
  {}

  lemma PageReceiveKeepsBase(s: System, failing: nat)
    requires Base(s)
    ensures Base(Step(s, PageReceive(failing)))
  {
    hide HostShape, PageSide, Left, EndingsOf, HostMessages, NothingAfterTerminal;
    var p, h := s.page, s.host;
    if p.frames == [] && s.pageRead < |h.posted| {
      var m := h.posted[s.pageRead];
      NextFromHost(h, s.pageRead);
      ReceiveKeepsSide(p, m, failing, h.requests, h.connections, h.active, s.hostRead);
      LeftAfterReceive(h.posted, s.pageRead, p.generation, Page.Receive(p, m, failing).generation);
    }
  }

  lemma HostSocketKeepsBase(s: System, e: Event)
    requires Base(s)
    requires e.HostSocketConnect? || e.HostSocketConnectError? || e.HostSocketDisconnect?
          || e.HostServerEvent? || e.HostAnswer? || e.HostClose?
    ensures Base(Step(s, e))
  {
    hide HostBase, PageShape, Linked, PageMessages, Fresh, Left;
    var h := s.host;
    match e {
    case HostSocketConnect(g, cloned, reported) =>
      if Host.Known(h, g) { SocketConnectKeepsBase(h, g, cloned, reported); }
    case HostSocketConnectError(g) =>
      if Host.Known(h, g) { SocketConnectErrorKeepsBase(h, g); }
    case HostSocketDisconnect(g) =>
      if Host.Known(h, g) { FinishKeepsBase(h, g, true); FinishExtends(h, g, true); }
    case HostServerEvent(g, wantsAck, cloned, reported) =>
      if Host.Known(h, g) { ForwardServerEventKeepsBase(h, g, wantsAck, cloned, reported); }
    case HostAnswer(r, payload, cloned, reported) =>
      if r < |h.references| && Host.Known(h, h.references[r].generation) {
        AnswerClientEventKeepsBase(h, r, payload, cloned, reported);
      }
    case HostClose => CloseKeepsBase(h);
    }
    var k := Step(s, e).host;
    if k != h { HostStepKeepsBase(s, k, s.hostRead); }
  }

  lemma PageCallKeepsBase(s: System, e: Event)
    requires Base(s)
    requires e.PageConnect? || e.PageDisconnect? || e.PageEmit? || e.PageAcknowledge? || e.PageResume?
    ensures Base(Step(s, e))
  {
    hide HostBase, PageSide, Left;
    var p, requests, records := s.page, s.host.requests, s.host.connections;
    match e {
    case PageConnect(cloned) => ConnectKeepsSide(p, cloned, requests, records, s.hostRead);
    case PageDisconnect => DisconnectKeepsSide(p, requests, records, s.hostRead);
    case PageEmit(wantsAck, cloned) => EmitKeepsSide(p, wantsAck, cloned, requests, records, s.hostRead);
    case PageAcknowledge(r, payload, cloned) =>
      if r < |p.references| { AcknowledgeKeepsSide(p, r, payload, cloned, requests, records, s.hostRead); }
    case PageResume(failing) => ResumeKeepsSide(p, failing, requests, records, s.hostRead);
    }
    var q := Step(s, e).page;
    if q != p { PageStepKeepsBase(s, q); }
  }

  lemma StepKeepsBase(s: System, e: Event)
    requires Base(s)
    ensures Base(Step(s, e))
  {
    hide Base;
    match e
    case PageReceive(failing) => PageReceiveKeepsBase(s, failing);
    case HostReceive(accepted, emitted) => HostReceiveKeepsBase(s, accepted, emitted);
    case PageConnect(_) => PageCallKeepsBase(s, e);
    case PageDisconnect => PageCallKeepsBase(s, e);
    case PageEmit(_, _) => PageCallKeepsBase(s, e);
    case PageAcknowledge(_, _, _) => PageCallKeepsBase(s, e);
    case PageResume(_) => PageCallKeepsBase(s, e);
    case _ => HostSocketKeepsBase(s, e);
  }

  lemma {:induction false} RunKeepsBase(s: System, events: seq<Event>)
    requires Base(s)
    ensures Base(Run(s, events))
    decreases |events|
  {
    hide Base;
    if events != [] {
      StepKeepsBase(s, events[0]);
      RunKeepsBase(Step(s, events[0]), events[1..]);
    }
  }

  lemma BaseInitially()
    ensures Base(INITIAL)
  {}

  ghost function Reached(events: seq<Event>): System {
    Run(INITIAL, events)
  }

  lemma ReachedBase(events: seq<Event>)
    ensures Base(Reached(events))
  {
    BaseInitially();
    RunKeepsBase(INITIAL, events);
  }

  /** In no run does the host take one of its three protocol-error branches. */
  lemma NoProtocolError(events: seq<Event>)
    ensures Reached(events).host.errors == []
  {
    ReachedBase(events);
  }

  /** Whatever generation the page is at, it is that of its latest CONNECT. */
  lemma GenerationIsLatestRequest(events: seq<Event>)
    ensures var s := Reached(events);
            s.page.generation.Some? ==>
              && 1 <= s.page.generation.value <= |s.host.requests|
              && s.host.requests[s.page.generation.value - 1] == s.page.requestSequence
  {
    ReachedBase(events);
  }

  /** Nothing the host ever posts with a generation follows the end of that generation. */
  lemma NothingFollowsTheEnd(events: seq<Event>, i: nat, j: nat)
    requires var h := Reached(events).host; i < j < |h.posted| && Terminal(h.posted[i])
    ensures var h := Reached(events).host; Tag(h.posted[j]) != Some(h.posted[i].generation)
  {
    ReachedBase(events);
  }

  ghost predicate Ending(s: System, g: nat)
    requires g in s.host.connections && s.pageRead <= |s.host.posted|
  {
    Disconnected(s.host.connections[g].request, g) in s.host.posted[s.pageRead..]
  }

  /** The step ends an announced connection without a DISCONNECTED; the guards of two branches of the host. */
  ghost predicate EndsSilently(s: System, e: Event, g: nat) {
    && Host.Live(s.host, g) && s.host.connections[g].announced
    && (e == HostSocketConnectError(g) || (e.HostSocketConnect? && e.generation == g && !e.cloned))
  }

  lemma MessageSilencesNothing(h: Host.State, m: PageMessage, accepted: bool, emitted: bool)
    ensures Host.HandleMessage(h, m, accepted, emitted).silenced == h.silenced
  {}

  lemma SocketConnectSilences(s: System, e: Event, g: nat)
    requires e.HostSocketConnect?
    ensures g in Step(s, e).host.silenced <==> g in s.host.silenced || EndsSilently(s, e, g)
  {}

  lemma SocketSilences(s: System, e: Event, g: nat)
    requires e.HostSocketConnectError? || e.HostSocketDisconnect? || e.HostClose?
    ensures g in Step(s, e).host.silenced <==> g in s.host.silenced || EndsSilently(s, e, g)
  {}

  /** `silenced` is exactly the set of generations ended that way. */
  lemma SilencedExactly(s: System, e: Event, g: nat)
    ensures g in Step(s, e).host.silenced <==> g in s.host.silenced || EndsSilently(s, e, g)
  {
    hide Host.HandleMessage, Host.Finish, Page.Receive, Page.Resume, Page.EmitCall;
    match e
    case HostReceive(accepted, emitted) =>
      if s.hostRead < |s.page.posted| {
        MessageSilencesNothing(s.host, s.page.posted[s.hostRead], accepted, emitted);
      }
    case HostSocketConnect(_, _, _) => SocketConnectSilences(s, e, g);
    case HostSocketConnectError(_) => SocketSilences(s, e, g);
    case HostSocketDisconnect(_) => SocketSilences(s, e, g);
    case HostClose => SocketSilences(s, e, g);
    case _ =>
  }

  /** No step of the run ends `g` silently. */
  ghost predicate NeverSilently(s: System, events: seq<Event>, g: nat)
    decreases |events|
  {
    events == [] || (!EndsSilently(s, events[0], g) && NeverSilently(Step(s, events[0]), events[1..], g))
  }

  lemma {:induction false} SilencedInRun(s: System, events: seq<Event>, g: nat)
    ensures g in Run(s, events).host.silenced <==> g in s.host.silenced || !NeverSilently(s, events, g)
    decreases |events|
  {
    hide Step, EndsSilently;
    if events != [] {
      SilencedExactly(s, events[0], g);
      SilencedInRun(Step(s, events[0]), events[1..], g);
    }
  }

  /**
    A page connected at `g` has a live connection on the host, or its DISCONNECTED is
    on the way, exactly when no step of the run ended `g` silently: its socket reported
    no `connect_error` after `connect`, and no repeated CONNECTED failed to clone.
   */
  lemma HalfOpenExactly(events: seq<Event>, g: nat)
    requires Reached(events).page.connected && Reached(events).page.generation == Some(g)
    ensures var s := Reached(events);
            && g in s.host.connections && s.pageRead <= |s.host.posted|
            && ((s.host.active == Some(g) || Ending(s, g)) <==> NeverSilently(INITIAL, events, g))
  {
    ReachedBase(events);
    SilencedInRun(INITIAL, events, g);
    hide NeverSilently, PageMessages, Fresh, HostMessages, NothingAfterTerminal;
    var s := Reached(events);
    var m := Disconnected(s.host.connections[g].request, g);
    if m in s.host.posted {
      var i :| 0 <= i < |s.host.posted| && s.host.posted[i] == m;
      assert s.pageRead <= i;
      assert s.host.posted[s.pageRead..][i - s.pageRead] == m;
    }
  }

  // Sockets as they behave when a middleware chain completes once.

  predicate ReportsConnect(e: Event, g: nat) {
    e.HostSocketConnect? && e.generation == g
  }

  /** The socket of `g` reports `connect` at most once, and `connect_error` only before it. */
  ghost predicate Orderly(events: seq<Event>, g: nat) {
    forall i, j :: 0 <= i < j < |events| && ReportsConnect(events[i], g) ==>
      !ReportsConnect(events[j], g) && events[j] != HostSocketConnectError(g)
  }

  ghost predicate Announced(s: System, g: nat) {
    g in s.host.connections && s.host.connections[g].announced
  }

  lemma FinishAnnounces(h: Host.State, g: nat, notify: bool, other: nat)
    requires Host.Known(h, g)
    ensures var k := Host.Finish(h, g, notify);
            other in k.connections && k.connections[other].announced ==>
              other in h.connections && h.connections[other].announced
  {}

  lemma MessageAnnounces(h: Host.State, m: PageMessage, accepted: bool, emitted: bool, g: nat)
    ensures var k := Host.HandleMessage(h, m, accepted, emitted);
            g in k.connections && k.connections[g].announced ==> g in h.connections && h.connections[g].announced
  {}

  /** Only its own `connect` announces a generation. */
  lemma AnnouncedBefore(s: System, e: Event, g: nat)
    requires !ReportsConnect(e, g) && Announced(Step(s, e), g)
    ensures Announced(s, g)
  {
    hide Page.Receive, Page.Resume, Page.EmitCall, Host.HandleMessage, Host.Finish;
    match e
    case HostReceive(accepted, emitted) =>
      if s.hostRead < |s.page.posted| {
        MessageAnnounces(s.host, s.page.posted[s.hostRead], accepted, emitted, g);
      }
    case HostSocketConnect(other, _, reported) =>
      if Host.Known(s.host, other) { FinishAnnounces(Host.PostFailure(s.host, other, reported), other, false, g); }
    case HostSocketConnectError(other) =>
      if Host.Known(s.host, other) {
        FinishAnnounces(Host.Post(s.host, ConnectError(s.host.connections[other].request, other)), other, false, g);
      }
    case HostSocketDisconnect(other) => if Host.Known(s.host, other) { FinishAnnounces(s.host, other, true, g); }
    case HostClose =>
      if s.host.active.Some? && Host.Known(s.host, s.host.active.value) {
        FinishAnnounces(s.host.(closed := true), s.host.active.value, true, g);
      }
    case _ =>
  }

  lemma {:induction false} OrderlyNeverSilently(s: System, events: seq<Event>, g: nat)
    requires Orderly(events, g)
    requires Announced(s, g) ==> forall e :: e in events ==> !ReportsConnect(e, g) && e != HostSocketConnectError(g)
    ensures NeverSilently(s, events, g)
    decreases |events|
  {
    hide Step;
    if events != [] {
      var q := Step(s, events[0]);
      var rest := events[1..];
      assert forall i :: 0 <= i < |rest| ==> rest[i] == events[i + 1];
      if ReportsConnect(events[0], g) {
        forall e | e in rest ensures !ReportsConnect(e, g) && e != HostSocketConnectError(g) {}
      } else if Announced(q, g) {
        AnnouncedBefore(s, events[0], g);
      }
      OrderlyNeverSilently(q, rest, g);
    }
  }

  /**
    No half-open session as long as the sockets report `connect` at most once each, and
    `connect_error` only before it: a page connected at `g` faces connection `g`, or its end
    is on the way.
   */
  lemma OrderlySocketsLeaveNoneHalfOpen(events: seq<Event>, g: nat)
    requires Orderly(events, g)
    requires Reached(events).page.connected && Reached(events).page.generation == Some(g)
    ensures var s := Reached(events);
            && g in s.host.connections && s.pageRead <= |s.host.posted|
            && (s.host.active == Some(g) || Ending(s, g))
  {
    hide NeverSilently, Orderly;
    HalfOpenExactly(events, g);
    OrderlyNeverSilently(INITIAL, events, g);
  }

  lemma RunOne(s: System, e: Event, rest: seq<Event>)
    ensures Run(s, [e] + rest) == Run(Step(s, e), rest)
  {
    assert ([e] + rest)[1..] == rest;
  }

  /** Connecting once, up to the page's `connect`. */
  lemma FirstConnection()
    ensures var s := Step(Step(Step(Step(INITIAL, PageConnect(true)), HostReceive(true, true)),
                               HostSocketConnect(1, true, true)), PageReceive(0));
            && s.page.connected && s.page.generation == Some(1) && s.pageRead == 1
            && s.host.posted == [Connected(1, 1)] && s.host.active == Some(1)
            && Host.Known(s.host, 1) && s.host.connections[1] == Host.Connection(1, false, true)
  {
    var s1 := Step(INITIAL, PageConnect(true));
    assert s1.page.posted == [Connect(1)];
    var s2 := Step(s1, HostReceive(true, true));
    var s3 := Step(s2, HostSocketConnect(1, true, true));
    assert s3.host.posted == [Connected(1, 1)];
  }

  /** A socket that reports `connect_error` after `connect` leaves the page connected to nothing. */
  lemma LateConnectErrorLeavesHalfOpen()
    ensures var events := [PageConnect(true)] + ([HostReceive(true, true)] + ([HostSocketConnect(1, true, true)]
                          + ([PageReceive(0)] + ([HostSocketConnectError(1)] + []))));
            var s := Reached(events);
            && s.page.connected && s.page.generation == Some(1)
            && s.host.active == None && 1 in s.host.connections
            && s.pageRead <= |s.host.posted| && !Ending(s, 1)
  {
    hide Step;
    FirstConnection();
    var s1 := Step(INITIAL, PageConnect(true));
    var s2 := Step(s1, HostReceive(true, true));
    var s3 := Step(s2, HostSocketConnect(1, true, true));
    var s4 := Step(s3, PageReceive(0));
    LateError(s4);
    RunOne(s4, HostSocketConnectError(1), []);
    RunOne(s3, PageReceive(0), [HostSocketConnectError(1)] + []);
    RunOne(s2, HostSocketConnect(1, true, true), [PageReceive(0)] + ([HostSocketConnectError(1)] + []));
    RunOne(s1, HostReceive(true, true),
           [HostSocketConnect(1, true, true)] + ([PageReceive(0)] + ([HostSocketConnectError(1)] + [])));
    RunOne(INITIAL, PageConnect(true),
           [HostReceive(true, true)] + ([HostSocketConnect(1, true, true)]
           + ([PageReceive(0)] + ([HostSocketConnectError(1)] + []))));
  }

  lemma LateError(s: System)
    requires s.page.connected && s.page.generation == Some(1) && s.pageRead == 1
    requires s.host.posted == [Connected(1, 1)] && s.host.active == Some(1)
    requires Host.Known(s.host, 1) && s.host.connections[1] == Host.Connection(1, false, true)
    ensures var t := Step(s, HostSocketConnectError(1));
            && t.page.connected && t.page.generation == Some(1)
            && t.host.active == None && 1 in t.host.connections && t.pageRead <= |t.host.posted| && !Ending(t, 1)
  {
    assert Step(s, HostSocketConnectError(1)).host.posted == [Connected(1, 1), ConnectError(1, 1)];
  }

  /** So does a second `connect` whose CONNECTED cannot be posted. */
  lemma RepeatedConnectLeavesHalfOpen()
    ensures var events := [PageConnect(true)] + ([HostReceive(true, true)] + ([HostSocketConnect(1, true, true)]
                          + ([PageReceive(0)] + ([HostSocketConnect(1, false, true)] + []))));
            var s := Reached(events);
            && s.page.connected && s.page.generation == Some(1)
            && s.host.active == None && 1 in s.host.connections
            && s.pageRead <= |s.host.posted| && !Ending(s, 1)
  {
    hide Step;
    FirstConnection();
    var e := HostSocketConnect(1, false, true);
    var s1 := Step(INITIAL, PageConnect(true));
    var s2 := Step(s1, HostReceive(true, true));
    var s3 := Step(s2, HostSocketConnect(1, true, true));
    var s4 := Step(s3, PageReceive(0));
    RepeatedConnect(s4);
    RunOne(s4, e, []);
    RunOne(s3, PageReceive(0), [e] + []);
    RunOne(s2, HostSocketConnect(1, true, true), [PageReceive(0)] + ([e] + []));
    RunOne(s1, HostReceive(true, true), [HostSocketConnect(1, true, true)] + ([PageReceive(0)] + ([e] + [])));
    RunOne(INITIAL, PageConnect(true),
           [HostReceive(true, true)] + ([HostSocketConnect(1, true, true)] + ([PageReceive(0)] + ([e] + []))));
  }

  lemma RepeatedConnect(s: System)
    requires s.page.connected && s.page.generation == Some(1) && s.pageRead == 1
    requires s.host.posted == [Connected(1, 1)] && s.host.active == Some(1)
    requires Host.Known(s.host, 1) && s.host.connections[1] == Host.Connection(1, false, true)
    ensures var t := Step(s, HostSocketConnect(1, false, true));
            && t.page.connected && t.page.generation == Some(1)
            && t.host.active == None && 1 in t.host.connections && t.pageRead <= |t.host.posted| && !Ending(t, 1)
  {
    assert Step(s, HostSocketConnect(1, false, true)).host.posted == [Connected(1, 1), BridgeError(Some(1))];
  }
}
