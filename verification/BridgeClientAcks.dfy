/**
  Acknowledgements of page emissions. The page's counter restarts with every generation, so
  an id is fresh only because a generation is connected at most once; a pending id always
  names the emission that was posted with it.
 */
module BridgeClientAcks {
  import opened Common
  import opened BridgeMessages
  import opened BridgeInvariant
  import opened BridgeBuffer
  import Page = BridgePage
  import Host = BridgeHost

  /** No two emissions share an id, and only emissions that left the buffer have one. */
  ghost predicate Tokens(issued: map<AckId, nat>, sent: seq<nat>, dropped: seq<nat>) {
    && (forall a :: a in issued ==> a.ClientAckId? && (issued[a] in sent || issued[a] in dropped))
    && (forall a, b :: a in issued && b in issued && a != b ==> issued[a] != issued[b])
  }

  /** The next id of the current generation, and every id of one still to be connected, is unused. */
  ghost predicate Unused(p: Page.State, requests: seq<nat>) {
    forall a :: a in p.issued ==>
      && 1 <= a.generation <= |requests|
      && (p.generation == Some(a.generation) ==> a.sequence <= p.ackSequence)
      && (p.connecting ==> p.request != Some(requests[a.generation - 1]))
  }

  ghost predicate Held(pending: map<AckId, nat>, issued: map<AckId, nat>, generation: Option<nat>) {
    forall a :: a in pending ==> a in issued && pending[a] == issued[a] && generation == Some(a.generation)
  }

  ghost predicate RunsOnce(ran: seq<Page.Ran>, pending: map<AckId, nat>, sent: seq<nat>, dropped: seq<nat>) {
    && (forall i, j :: 0 <= i < j < |ran| ==> ran[i].callback != ran[j].callback)
    && (forall i :: 0 <= i < |ran| ==> ran[i].callback in sent || ran[i].callback in dropped)
    && (forall i, a :: 0 <= i < |ran| && a in pending ==> pending[a] != ran[i].callback)
  }

  /** A CLIENT_EVENT carries the id of its own emission, and no emission is posted twice. */
  ghost predicate Carried(posted: seq<PageMessage>, issued: map<AckId, nat>, sent: seq<nat>) {
    && (forall i :: 0 <= i < |posted| && posted[i].ClientEvent? ==>
          && posted[i].emission in sent
          && (posted[i].clientAck.Some? ==>
                posted[i].clientAck.value in issued && issued[posted[i].clientAck.value] == posted[i].emission))
    && (forall i, j :: 0 <= i < j < |posted| && posted[i].ClientEvent? && posted[j].ClientEvent? ==>
          posted[i].emission != posted[j].emission)
  }

  ghost predicate AckSide(p: Page.State, requests: seq<nat>) {
    && Tokens(p.issued, p.sent, p.dropped)
    && Unused(p, requests)
    && Held(p.pendingClientAcks, p.issued, p.generation)
    && RunsOnce(p.ran, p.pendingClientAcks, p.sent, p.dropped)
    && Carried(p.posted, p.issued, p.sent)
  }

  /** Posting an emission that was neither sent nor dropped before. */
  lemma PostKeepsTokens(p: Page.State, e: Page.Emission, g: nat, cloned: bool)
    requires Tokens(p.issued, p.sent, p.dropped) && e.id !in p.sent && e.id !in p.dropped
    requires ClientAckId(g, p.ackSequence + 1) !in p.issued
    ensures var q := Page.PostEmission(p, e, g, cloned); Tokens(q.issued, q.sent, q.dropped)
  {}

  lemma PostKeepsUnused(p: Page.State, e: Page.Emission, g: nat, cloned: bool, requests: seq<nat>)
    requires Unused(p, requests) && p.generation == Some(g) && 1 <= g <= |requests| && !p.connecting
    ensures ClientAckId(g, p.ackSequence + 1) !in p.issued
    ensures Unused(Page.PostEmission(p, e, g, cloned), requests)
  {}

  lemma PostKeepsHeld(p: Page.State, e: Page.Emission, g: nat, cloned: bool)
    requires Held(p.pendingClientAcks, p.issued, p.generation) && p.generation == Some(g)
    requires ClientAckId(g, p.ackSequence + 1) !in p.issued
    ensures var q := Page.PostEmission(p, e, g, cloned); Held(q.pendingClientAcks, q.issued, q.generation)
  {}

  lemma PostKeepsRuns(p: Page.State, e: Page.Emission, g: nat, cloned: bool)
    requires RunsOnce(p.ran, p.pendingClientAcks, p.sent, p.dropped) && e.id !in p.sent && e.id !in p.dropped
    ensures var q := Page.PostEmission(p, e, g, cloned); RunsOnce(q.ran, q.pendingClientAcks, q.sent, q.dropped)
  {}

  lemma PostKeepsCarried(p: Page.State, e: Page.Emission, g: nat, cloned: bool)
    requires Carried(p.posted, p.issued, p.sent) && e.id !in p.sent
    requires ClientAckId(g, p.ackSequence + 1) !in p.issued
    ensures var q := Page.PostEmission(p, e, g, cloned); Carried(q.posted, q.issued, q.sent)
  {}

  lemma PostKeepsAckSide(p: Page.State, e: Page.Emission, g: nat, cloned: bool, requests: seq<nat>)
    requires AckSide(p, requests) && e.id !in p.sent && e.id !in p.dropped
    requires p.generation == Some(g) && 1 <= g <= |requests| && !p.connecting
    ensures AckSide(Page.PostEmission(p, e, g, cloned), requests)
  {
    hide Tokens, Unused, Held, RunsOnce, Carried;
    PostKeepsUnused(p, e, g, cloned, requests);
    PostKeepsTokens(p, e, g, cloned);
    PostKeepsHeld(p, e, g, cloned);
    PostKeepsRuns(p, e, g, cloned);
    PostKeepsCarried(p, e, g, cloned);
  }

  /** The emissions of `rest` have not been posted and are all different. */
  ghost predicate Unposted(rest: seq<Page.Emission>, sent: seq<nat>, dropped: seq<nat>) {
    && (forall e :: e in rest ==> e.id !in sent && e.id !in dropped)
    && InOrder(rest)
  }

  lemma UnpostedTail(p: Page.State, rest: seq<Page.Emission>, g: nat, cloned: bool)
    requires rest != [] && Unposted(rest, p.sent, p.dropped)
    ensures rest[0].id !in p.sent && rest[0].id !in p.dropped
    ensures var q := Page.PostEmission(p, rest[0], g, cloned); Unposted(rest[1..], q.sent, q.dropped)
  {}

  lemma {:induction false} FlushKeepsAckSide(
    p: Page.State, g: nat, rest: seq<Page.Emission>, failing: nat, requests: seq<nat>)
    requires AckSide(p, requests) && Unposted(rest, p.sent, p.dropped) && 1 <= g <= |requests| && !p.connecting
    ensures AckSide(Page.FlushLoop(p, g, rest, failing), requests)
    decreases |rest|
  {
    hide AckSide, Unposted;
    if rest == [] {
    } else if !Page.MayFlush(p, g) {
      SameAckSide(p, p.(outgoing := rest + p.outgoing), requests);
    } else if failing == 0 {
      var b := p.(frames := [Page.Flush(g, rest[1..])] + p.frames);
      SameAckSide(p, b, requests);
      UnpostedTail(p, rest, g, false);
      PostKeepsAckSide(b, rest[0], g, false, requests);
    } else {
      UnpostedTail(p, rest, g, true);
      PostKeepsAckSide(p, rest[0], g, true, requests);
      FlushKeepsAckSide(Page.PostEmission(p, rest[0], g, true), g, rest[1..], failing - 1, requests);
    }
  }

  lemma SameAckSide(p: Page.State, q: Page.State, requests: seq<nat>)
    requires AckSide(p, requests)
    requires q == p.(outgoing := q.outgoing, frames := q.frames, emissions := q.emissions)
    ensures AckSide(q, requests)
  {}

  lemma NotInBoth(a: multiset<nat>, b: multiset<nat>, c: multiset<nat>, n: nat, k: nat)
    requires a + b + c == Numbers(n) && a[k] > 0
    ensures b[k] == 0 && c[k] == 0
  {
    NumbersOnce(n, k);
    assert (a + b + c)[k] == a[k] + b[k] + c[k];
  }

  lemma BacklogUnposted(l: Ledger)
    requires Balanced(l) && Queued(l)
    ensures Unposted(l.backlog, l.sent, l.dropped)
  {
    forall e | e in l.backlog
      ensures e.id !in l.sent && e.id !in l.dropped
    {
      var i :| 0 <= i < |l.backlog| && l.backlog[i] == e;
      assert Ids(l.backlog)[i] in Ids(l.backlog);
      NotInBoth(multiset(Ids(l.backlog)), multiset(l.sent), multiset(l.dropped), l.emissions, e.id);
    }
  }

  lemma NextUnposted(l: Ledger)
    requires Balanced(l)
    ensures l.emissions !in l.sent && l.emissions !in l.dropped
  {
    NumbersOnce(l.emissions, l.emissions);
    var k := l.emissions;
    assert (multiset(Ids(l.backlog)) + multiset(l.sent) + multiset(l.dropped))[k]
        == multiset(Ids(l.backlog))[k] + multiset(l.sent)[k] + multiset(l.dropped)[k];
  }

  lemma PostOtherKeepsCarried(posted: seq<PageMessage>, m: PageMessage, issued: map<AckId, nat>, sent: seq<nat>)
    requires Carried(posted, issued, sent) && !m.ClientEvent?
    ensures Carried(posted + [m], issued, sent)
  {}

  /** Giving up the pending acknowledgements, whatever happens to the generation. */
  lemma ReleaseKeepsAckSide(p: Page.State, q: Page.State, requests: seq<nat>)
    requires AckSide(p, requests)
    requires q.issued == p.issued && q.sent == p.sent && q.dropped == p.dropped && q.ran == p.ran
    requires q.posted == p.posted || exists m: PageMessage :: !m.ClientEvent? && q.posted == p.posted + [m]
    requires q.pendingClientAcks == map[] || (q.pendingClientAcks == p.pendingClientAcks && q.generation == p.generation)
    requires Unused(q, requests)
    ensures AckSide(q, requests)
  {
    if q.posted != p.posted {
      var m: PageMessage :| !m.ClientEvent? && q.posted == p.posted + [m];
      PostOtherKeepsCarried(p.posted, m, p.issued, p.sent);
    }
  }

  lemma ConnectKeepsAckSide(p: Page.State, cloned: bool, requests: seq<nat>)
    requires AckSide(p, requests)
    requires forall i :: 0 <= i < |requests| ==> requests[i] <= p.requestSequence
    ensures AckSide(Page.ConnectCall(p, cloned), requests)
  {
    var q := Page.ConnectCall(p, cloned);
    assert Unused(q, requests);
    if q != p { 
      hide AckSide, Unused;
      if cloned { assert q.posted == p.posted + [Connect(p.requestSequence + 1)]; }
      ReleaseKeepsAckSide(p, q, requests);
    }
  }

  lemma DisconnectKeepsAckSide(p: Page.State, requests: seq<nat>)
    requires AckSide(p, requests)
    ensures AckSide(Page.DisconnectCall(p), requests)
  {
    var q := Page.DisconnectCall(p);
    assert Unused(q, requests);
    hide AckSide, Unused;
    if q.posted != p.posted {
      var m := Disconnect(p.request.value, p.generation.value);
      assert !m.ClientEvent? && q.posted == p.posted + [m];
    }
    ReleaseKeepsAckSide(p, q, requests);
  }

  lemma AcknowledgeKeepsAckSide(p: Page.State, r: nat, payload: Payload, cloned: bool, requests: seq<nat>)
    requires AckSide(p, requests) && r < |p.references|
    ensures AckSide(Page.AcknowledgeCall(p, r, payload, cloned), requests)
  {
    var q := Page.AcknowledgeCall(p, r, payload, cloned);
    assert Unused(q, requests);
    hide AckSide, Unused;
    if q.posted != p.posted {
      var m := AckServer(p.references[r].generation, p.references[r].ackId, payload);
      assert !m.ClientEvent? && q.posted == p.posted + [m];
    }
    ReleaseKeepsAckSide(p, q, requests);
  }

  lemma EmitKeepsAckSide(p: Page.State, wantsAck: bool, cloned: bool, requests: seq<nat>)
    requires AckSide(p, requests) && Conserved(p)
    requires PageShape(p) && (p.generation.Some? ==> 1 <= p.generation.value <= |requests|)
    ensures AckSide(Page.EmitCall(p, wantsAck, cloned), requests)
  {
    hide AckSide, Balanced, Queued, FlushOutermost;
    var e := Page.Emission(p.emissions, wantsAck);
    var q := p.(emissions := p.emissions + 1);
    SameAckSide(p, q, requests);
    if !p.connected || p.generation == None || p.disconnecting {
      SameAckSide(p, q.(outgoing := q.outgoing + [e]), requests);
    } else {
      NextUnposted(LedgerOf(p));
      PostKeepsAckSide(q, e, p.generation.value, cloned, requests);
    }
  }

  lemma RestUnposted(p: Page.State, rest: seq<Page.Emission>)
    requires Conserved(p) && rest <= Backlog(p)
    ensures Unposted(rest, p.sent, p.dropped)
  {
    BacklogUnposted(LedgerOf(p));
    assert forall e :: e in rest ==> e in Backlog(p);
  }

  lemma ResumeFlushKeepsAckSide(p: Page.State, g: nat, rest: seq<Page.Emission>, failing: nat, requests: seq<nat>)
    requires AckSide(p, requests) && Conserved(p) && PageShape(p)
    requires p.generation.Some? ==> 1 <= p.generation.value <= |requests|
    requires p.frames != [] && p.frames[0] == Page.Flush(g, rest)
    ensures AckSide(Page.Resume(p, failing), requests)
  {
    hide Conserved, AckSide;
    var q := p.(frames := p.frames[1..]);
    SameAckSide(p, q, requests);
    RestInBacklog(p);
    RestUnposted(p, rest);
    if Page.MayFlush(q, g) {
      FlushKeepsAckSide(q, g, rest, failing, requests);
    } else {
      SameAckSide(q, q.(outgoing := rest + q.outgoing), requests);
    }
  }

  lemma ResumeKeepsAckSide(p: Page.State, failing: nat, requests: seq<nat>)
    requires AckSide(p, requests) && Conserved(p) && PageShape(p)
    requires p.generation.Some? ==> 1 <= p.generation.value <= |requests|
    ensures AckSide(Page.Resume(p, failing), requests)
  {
    hide Conserved;
    if p.frames != [] {
      var q := p.(frames := p.frames[1..]);
      match p.frames[0]
      case ConnectFailed => ReleaseKeepsAckSide(p, Page.Resume(p, failing), requests);
      case EmissionFailed(None) => SameAckSide(p, q, requests);
      case EmissionFailed(Some(a)) => ForgetKeepsAckSide(p, Page.Resume(p, failing), requests);
      case Flush(g, rest) => ResumeFlushKeepsAckSide(p, g, rest, failing, requests);
    }
  }

  lemma RestInBacklog(p: Page.State)
    requires Conserved(p) && p.frames != [] && p.frames[0].Flush?
    ensures p.frames[0].rest <= Backlog(p)
  {}

  lemma ForgetKeepsAckSide(p: Page.State, q: Page.State, requests: seq<nat>)
    requires AckSide(p, requests)
    requires q == p.(frames := q.frames, pendingClientAcks := q.pendingClientAcks)
    requires q.pendingClientAcks.Keys <= p.pendingClientAcks.Keys
    requires forall a :: a in q.pendingClientAcks ==> q.pendingClientAcks[a] == p.pendingClientAcks[a]
    ensures AckSide(q, requests)
  {}

  lemma OpenKeepsAckSide(p: Page.State, g: nat, requests: seq<nat>)
    requires AckSide(p, requests) && p.connecting && 1 <= g <= |requests| && p.request == Some(requests[g - 1])
    requires p.generation == None
    ensures AckSide(p.(generation := Some(g), connected := true, connecting := false, ackSequence := 0), requests)
  {}

  lemma ReceiveConnectedKeepsAckSide(p: Page.State, request: nat, g: nat, failing: nat, requests: seq<nat>)
    requires AckSide(p, requests) && Conserved(p) && PageShape(p) && p.frames == []
    requires 1 <= g <= |requests| && request == requests[g - 1]
    ensures AckSide(Page.ReceiveConnected(p, request, g, failing), requests)
  {
    hide AckSide, Conserved;
    if Some(request) == p.request && p.connecting {
      OpenKeepsAckSide(p, g, requests);
      var q := p.(generation := Some(g), connected := true, connecting := false, ackSequence := 0);
      if q.disconnectAfterConnect {
        CancelKeepsAckSide(q, requests);
        DisconnectKeepsAckSide(q.(disconnectAfterConnect := false), requests);
      } else {
        SameAckSide(q, q.(outgoing := []), requests);
        OutgoingInBacklog(p);
        RestUnposted(p, p.outgoing);
        FlushKeepsAckSide(q.(outgoing := []), g, q.outgoing, failing, requests);
      }
    }
  }

  lemma OutgoingInBacklog(p: Page.State)
    requires p.frames == []
    ensures p.outgoing <= Backlog(p)
  {
    assert [] + p.outgoing == p.outgoing;
  }

  lemma CancelKeepsAckSide(p: Page.State, requests: seq<nat>)
    requires AckSide(p, requests)
    ensures AckSide(p.(disconnectAfterConnect := false), requests)
  {}

  lemma ReceiveAckKeepsAckSide(p: Page.State, ackId: AckId, payload: Payload, requests: seq<nat>)
    requires AckSide(p, requests)
    ensures AckSide(Page.ReceiveAcknowledgement(p, ackId, payload), requests)
  {
    var q := Page.ReceiveAcknowledgement(p, ackId, payload);
    if q != p {
      assert q.issued[ackId] == p.pendingClientAcks[ackId];
    }
  }

  lemma ReceiveKeepsAckSide(
    p: Page.State, m: HostMessage, failing: nat, requests: seq<nat>, records: Records, active: Option<nat>)
    requires AckSide(p, requests) && Conserved(p) && PageShape(p) && p.frames == []
    requires FromHost(m, requests, records, active)
    ensures AckSide(Page.Receive(p, m, failing), requests)
  {
    hide Conserved, AckSide;
    var q := Page.Receive(p, m, failing);
    match m
    case BridgeError(_) =>
    case Connected(r, g) => ReceiveConnectedKeepsAckSide(p, r, g, failing, requests);
    case ConnectError(r, _) => StopKeepsAckSide(p, q, requests);
    case ServerEvent(g, event, ackId) => DispatchKeepsAckSide(p, q, requests);
    case AckClient(g, ackId, payload) => ReceiveAckKeepsAckSide(p, ackId, payload, requests);
    case Disconnected(r, g) => StopKeepsAckSide(p, q, requests);
  }

  lemma StopKeepsAckSide(p: Page.State, q: Page.State, requests: seq<nat>)
    requires AckSide(p, requests)
    requires q == p || (p.generation == None && p.connecting && q == Page.ReceiveError(p)) || q == Page.ReceiveDisconnected(p)
    requires p.connecting ==> p.generation == None
    ensures AckSide(q, requests)
  {}

  lemma DispatchKeepsAckSide(p: Page.State, q: Page.State, requests: seq<nat>)
    requires AckSide(p, requests)
    requires q == p.(references := q.references, pendingServerAcks := q.pendingServerAcks, dispatched := q.dispatched)
    ensures AckSide(q, requests)
  {}

  /** More CONNECT requests taken by the host do not concern the ids already issued. */
  lemma GrowthKeepsAckSide(p: Page.State, requests: seq<nat>, longer: seq<nat>)
    requires AckSide(p, requests) && requests <= longer
    ensures AckSide(p, longer)
  {}
}
