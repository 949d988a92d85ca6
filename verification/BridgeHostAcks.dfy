/**
  Both kinds of acknowledgement on the host: the functions it hands to the server with client
  events, and the callbacks it keeps for server events sent to the page. Ids of the second
  kind are fresh because the counter of a record is never reset.
 */
module BridgeHostAcks {
  import opened Common
  import opened BridgeMessages
  import opened BridgeInvariant
  import BridgeHostSteps
  import Host = BridgeHost

  /** Reference `r` belongs to a CLIENT_EVENT that was received. */
  ghost predicate Born(reference: Host.Reference, posted: seq<PageMessage>, read: nat) {
    exists i :: 0 <= i < read && i < |posted|
             && posted[i] == ClientEvent(reference.generation, reference.emission, Some(reference.ackId))
  }

  ghost predicate AllBorn(references: seq<Host.Reference>, posted: seq<PageMessage>, read: nat) {
    forall r :: 0 <= r < |references| ==> Born(references[r], posted, read)
  }

  /** Connection `g` still waits for the answer to reference `r`. */
  ghost predicate Pending(h: Host.State, g: nat, r: nat) {
    g in h.acks && r in h.acks[g].client
  }

  /** A reference still pending has not been answered. */
  ghost predicate Open(h: Host.State) {
    && (forall g: nat, r: nat :: Pending(h, g, r) ==> r < |h.references| && h.references[r].generation == g && r !in h.answers)
    && (forall r :: r in h.answers ==> r < |h.references|)
  }

  lemma FewerPending(h: Host.State, k: Host.State)
    requires Open(h) && k.references == h.references && k.answers == h.answers
    requires forall g: nat, r: nat :: Pending(k, g, r) ==> Pending(h, g, r)
    ensures Open(k)
  {}

  /** Some reference with this id was answered with this payload. */
  ghost predicate Answered(h: Host.State, ackId: AckId, payload: Payload) {
    exists r :: 0 <= r < |h.references| && h.references[r].ackId == ackId && r in h.answers && h.answers[r] == payload
  }

  ghost predicate Truthful(h: Host.State) {
    forall i :: 0 <= i < |h.posted| && h.posted[i].AckClient? ==> Answered(h, h.posted[i].ackId, h.posted[i].payload)
  }

  /** The host's answers only grow. */
  ghost predicate Remembers(h: Host.State, k: Host.State) {
    && h.references <= k.references
    && (forall r :: r in h.answers ==> r in k.answers && k.answers[r] == h.answers[r])
  }

  lemma AnsweredSurvives(h: Host.State, k: Host.State, ackId: AckId, payload: Payload)
    requires Answered(h, ackId, payload) && Remembers(h, k)
    ensures Answered(k, ackId, payload)
  {
    var r :| 0 <= r < |h.references| && h.references[r].ackId == ackId && r in h.answers && h.answers[r] == payload;
    assert k.references[r] == h.references[r];
  }

  /** A step that answers nothing and posts no acknowledgement. */
  lemma TruthfulSurvives(h: Host.State, k: Host.State)
    requires Truthful(h) && Remembers(h, k) && h.posted <= k.posted
    requires forall i :: |h.posted| <= i < |k.posted| ==> !k.posted[i].AckClient?
    ensures Truthful(k)
  {
    forall i | 0 <= i < |k.posted| && k.posted[i].AckClient?
      ensures Answered(k, k.posted[i].ackId, k.posted[i].payload)
    {
      AnsweredSurvives(h, k, h.posted[i].ackId, h.posted[i].payload);
    }
  }

  lemma AnswerIsTruthful(h: Host.State, r: nat, payload: Payload, cloned: bool, reported: bool)
    requires Truthful(h) && Open(h) && r < |h.references| && Host.Known(h, h.references[r].generation)
    ensures var k := Host.AnswerClientEvent(h, r, payload, cloned, reported); Truthful(k) && Remembers(h, k)
  {
    assert r in h.acks[h.references[r].generation].client ==> Pending(h, h.references[r].generation, r);
    var k := Host.AnswerClientEvent(h, r, payload, cloned, reported);
    forall i | 0 <= i < |k.posted| && k.posted[i].AckClient?
      ensures Answered(k, k.posted[i].ackId, k.posted[i].payload)
    {
      if i < |h.posted| {
        AnsweredSurvives(h, k, h.posted[i].ackId, h.posted[i].payload);
      } else {
        assert k.references[r].ackId == k.posted[i].ackId && k.answers[r] == k.posted[i].payload;
      }
    }
  }

  lemma AnswerKeepsOpen(h: Host.State, r: nat, payload: Payload, cloned: bool, reported: bool)
    requires Open(h) && r < |h.references| && Host.Known(h, h.references[r].generation)
    ensures Open(Host.AnswerClientEvent(h, r, payload, cloned, reported))
  {
    var k := Host.AnswerClientEvent(h, r, payload, cloned, reported);
    var own := h.references[r].generation;
    if r in h.acks[own].client {
      assert k.references == h.references && k.answers == h.answers[r := payload];
      assert Pending(h, own, r);
      forall g: nat, x: nat | Pending(k, g, x) ensures Pending(h, g, x) && x != r {
        assert Pending(h, g, x);
      }
    }
  }

  // Callbacks of server events.

  ghost predicate Tokens(h: Host.State) {
    && (forall a :: a in h.issued ==>
          && a.ServerAckId? && h.issued[a] < h.events
          && a.generation in h.acks && a.sequence <= h.acks[a.generation].next)
    && (forall a, b :: a in h.issued && b in h.issued && a != b ==> h.issued[a] != h.issued[b])
  }

  ghost predicate Held(h: Host.State) {
    forall g, a :: g in h.acks && a in h.acks[g].server ==>
      a in h.issued && h.acks[g].server[a] == h.issued[a] && a.generation == g
  }

  ghost predicate RunsOnce(h: Host.State) {
    && (forall i, j :: 0 <= i < j < |h.ran| ==> h.ran[i].callback != h.ran[j].callback)
    && (forall i :: 0 <= i < |h.ran| ==> h.ran[i].callback < h.events)
    && (forall i, g, a :: 0 <= i < |h.ran| && g in h.acks && a in h.acks[g].server ==>
          h.acks[g].server[a] != h.ran[i].callback)
  }

  /** A SERVER_EVENT carries the id of its own event, and events are posted in order. */
  ghost predicate Carried(h: Host.State) {
    && (forall i :: 0 <= i < |h.posted| && h.posted[i].ServerEvent? ==>
          && h.posted[i].event < h.events
          && (h.posted[i].serverAck.Some? ==>
                h.posted[i].serverAck.value in h.issued && h.issued[h.posted[i].serverAck.value] == h.posted[i].event))
    && (forall i, j :: 0 <= i < j < |h.posted| && h.posted[i].ServerEvent? && h.posted[j].ServerEvent? ==>
          h.posted[i].event < h.posted[j].event)
  }

  ghost predicate AckSide(h: Host.State) {
    Open(h) && Truthful(h) && Tokens(h) && Held(h) && RunsOnce(h) && Carried(h)
  }

  /** A step that moves no acknowledgement and forwards no event, though it may drop some. */
  ghost predicate Quiet(h: Host.State, k: Host.State) {
    && k.references == h.references && k.answers == h.answers && k.issued == h.issued
    && k.events == h.events && k.ran == h.ran && k.received == h.received
    && h.posted <= k.posted
    && (forall i :: |h.posted| <= i < |k.posted| ==> !k.posted[i].AckClient? && !k.posted[i].ServerEvent?)
    && (forall g :: g in h.acks ==>
          && g in k.acks && k.acks[g].next == h.acks[g].next
          && (k.acks[g].server == map[] || k.acks[g].server == h.acks[g].server)
          && (k.acks[g].client == {} || k.acks[g].client == h.acks[g].client))
    && (forall g :: g in k.acks && g !in h.acks ==> k.acks[g] == Host.NO_ACKS)
  }

  lemma QuietKeepsClientSide(h: Host.State, k: Host.State)
    requires Quiet(h, k) && Open(h) && Truthful(h)
    ensures Open(k) && Truthful(k)
  {
    forall g: nat, r: nat | Pending(k, g, r) ensures Pending(h, g, r) {}
    FewerPending(h, k);
    TruthfulSurvives(h, k);
  }

  lemma QuietKeepsServerSide(h: Host.State, k: Host.State)
    requires Quiet(h, k) && Tokens(h) && Held(h) && RunsOnce(h)
    ensures Tokens(k) && Held(k) && RunsOnce(k)
  {
    hide Quiet, Tokens, Held, RunsOnce;
    QuietKeepsTokens(h, k);
    QuietKeepsHeld(h, k);
    QuietKeepsRuns(h, k);
  }

  lemma QuietKeepsTokens(h: Host.State, k: Host.State)
    requires Quiet(h, k) && Tokens(h)
    ensures Tokens(k)
  {}

  lemma QuietKeepsHeld(h: Host.State, k: Host.State)
    requires Quiet(h, k) && Held(h)
    ensures Held(k)
  {}

  lemma QuietKeepsRuns(h: Host.State, k: Host.State)
    requires Quiet(h, k) && RunsOnce(h)
    ensures RunsOnce(k)
  {}

  lemma QuietKeepsCarried(h: Host.State, k: Host.State)
    requires Quiet(h, k) && Carried(h)
    ensures Carried(k)
  {}

  lemma QuietKeepsAckSide(h: Host.State, k: Host.State)
    requires Quiet(h, k) && AckSide(h)
    ensures AckSide(k)
  {
    hide Quiet, Open, Truthful, Tokens, Held, RunsOnce, Carried;
    QuietKeepsClientSide(h, k);
    QuietKeepsServerSide(h, k);
    QuietKeepsCarried(h, k);
  }

  lemma QuietTransitive(h: Host.State, k: Host.State, l: Host.State)
    requires Quiet(h, k) && Quiet(k, l)
    ensures Quiet(h, l)
  {}

  lemma FinishIsQuiet(h: Host.State, g: nat, notify: bool)
    requires Host.Known(h, g)
    ensures Quiet(h, Host.Finish(h, g, notify))
  {}

  lemma ReceiveConnectIsQuiet(h: Host.State, request: nat, accepted: bool)
    requires HostShape(h)
    ensures Quiet(h, Host.ReceiveConnect(h, request, accepted))
  {
    hide HostShape;
    var q := h;
    BridgeHostSteps.NextIsNew(h);
    if h.active.Some? {
      BridgeHostSteps.ActiveIsLive(h);
      q := Host.Finish(h, h.active.value, true);
      FinishIsQuiet(h, h.active.value, true);
    }
    OpenIsQuiet(q, request, accepted);
    QuietTransitive(h, q, Host.ReceiveConnect(h, request, accepted));
  }

  lemma OpenIsQuiet(h: Host.State, request: nat, accepted: bool)
    requires h.active == None && h.nextGeneration + 1 !in h.acks
    ensures Quiet(h, Host.ReceiveConnect(h, request, accepted))
  {}

  lemma SocketConnectIsQuiet(h: Host.State, g: nat, cloned: bool, reported: bool)
    requires Host.Known(h, g)
    ensures Quiet(h, Host.SocketConnect(h, g, cloned, reported))
  {
    if Host.Live(h, g) && !cloned {
      FinishIsQuiet(Host.PostFailure(h, g, reported), g, false);
    }
  }

  lemma SocketConnectErrorIsQuiet(h: Host.State, g: nat)
    requires Host.Known(h, g)
    ensures Quiet(h, Host.SocketConnectError(h, g))
  {}

  lemma CloseIsQuiet(h: Host.State)
    ensures Quiet(h, Host.CloseCall(h))
  {}

  lemma HandleClientEventKeepsAckSide(h: Host.State, g: nat, emission: nat, ackId: Option<AckId>, emitted: bool)
    requires AckSide(h) && Host.Known(h, g)
    ensures AckSide(Host.HandleClientEvent(h, g, emission, ackId, emitted))
  {
    hide Tokens, Held, RunsOnce, Truthful, Carried, Open;
    var k := Host.HandleClientEvent(h, g, emission, ackId, emitted);
    SameServerSide(h, k);
    TruthfulSurvives(h, k);
    HandleClientEventKeepsOpen(h, g, emission, ackId, emitted);
  }

  lemma HandleClientEventKeepsOpen(h: Host.State, g: nat, emission: nat, ackId: Option<AckId>, emitted: bool)
    requires Open(h) && Host.Known(h, g)
    ensures Open(Host.HandleClientEvent(h, g, emission, ackId, emitted))
  {
    var k := Host.HandleClientEvent(h, g, emission, ackId, emitted);
    forall other: nat, r: nat | Pending(k, other, r) 
      ensures r < |k.references| && k.references[r].generation == other && r !in k.answers
    {
      if r < |h.references| { assert k.references[r] == h.references[r]; }
      assert Pending(h, other, r) || (other == g && r == |h.references| < |k.references|);
    }
  }

  lemma SameServerSide(h: Host.State, k: Host.State)
    requires Tokens(h) && Held(h) && RunsOnce(h) && Carried(h)
    requires k.issued == h.issued && k.events == h.events && k.ran == h.ran && h.posted <= k.posted
    requires forall i :: |h.posted| <= i < |k.posted| ==> !k.posted[i].ServerEvent?
    requires k.acks.Keys == h.acks.Keys
    requires forall g :: g in h.acks ==> k.acks[g].next == h.acks[g].next && k.acks[g].server == h.acks[g].server
    ensures Tokens(k) && Held(k) && RunsOnce(k) && Carried(k)
  {}

  lemma AnswerKeepsAckSide(h: Host.State, r: nat, payload: Payload, cloned: bool, reported: bool)
    requires AckSide(h) && r < |h.references| && Host.Known(h, h.references[r].generation)
    ensures var k := Host.AnswerClientEvent(h, r, payload, cloned, reported); AckSide(k) && Remembers(h, k)
  {
    hide Tokens, Held, RunsOnce, Truthful, Open, Carried;
    AnswerKeepsOpen(h, r, payload, cloned, reported);
    AnswerIsTruthful(h, r, payload, cloned, reported);
    SameServerSide(h, Host.AnswerClientEvent(h, r, payload, cloned, reported));
  }

  lemma HandleServerAckKeepsTokens(h: Host.State, g: nat, ackId: AckId, payload: Payload)
    requires Tokens(h) && Held(h) && Host.Known(h, g)
    ensures var k := Host.HandleServerAck(h, g, ackId, payload); Tokens(k) && Held(k)
  {}

  lemma HandleServerAckRunsOnce(h: Host.State, g: nat, ackId: AckId, payload: Payload)
    requires Tokens(h) && Held(h) && RunsOnce(h) && Host.Known(h, g) && ackId in h.acks[g].server
    ensures RunsOnce(Host.HandleServerAck(h, g, ackId, payload))
  {
    var k := Host.HandleServerAck(h, g, ackId, payload);
    var callback := h.issued[ackId];
    assert k.ran == h.ran + [Host.Ran(callback, payload)];
    forall g', a | g' in k.acks && a in k.acks[g'].server
      ensures a in h.acks[g'].server && k.acks[g'].server[a] == h.acks[g'].server[a] != callback
    {
      assert h.issued[a] != callback;
    }
  }

  lemma HandleServerAckKeepsClientSide(h: Host.State, g: nat, ackId: AckId, payload: Payload)
    requires Open(h) && Carried(h) && Host.Known(h, g)
    ensures var k := Host.HandleServerAck(h, g, ackId, payload); Open(k) && Carried(k)
  {
    var k := Host.HandleServerAck(h, g, ackId, payload);
    forall other: nat, r: nat ensures Pending(k, other, r) <==> Pending(h, other, r) {}
    FewerPending(h, k);
  }

  lemma HandleServerAckKeepsAckSide(h: Host.State, g: nat, ackId: AckId, payload: Payload)
    requires AckSide(h) && Host.Known(h, g)
    ensures AckSide(Host.HandleServerAck(h, g, ackId, payload))
  {
    hide Truthful, Tokens, Held, RunsOnce, Open, Carried;
    var k := Host.HandleServerAck(h, g, ackId, payload);
    TruthfulSurvives(h, k);
    HandleServerAckKeepsClientSide(h, g, ackId, payload);
    HandleServerAckKeepsTokens(h, g, ackId, payload);
    if k != h { HandleServerAckRunsOnce(h, g, ackId, payload); }
  }

  lemma ForwardKeepsTokens(h: Host.State, g: nat, wantsAck: bool, cloned: bool, reported: bool)
    requires Tokens(h) && Host.Known(h, g)
    ensures ServerAckId(g, h.acks[g].next + 1) !in h.issued
    ensures Tokens(Host.ForwardServerEvent(h, g, wantsAck, cloned, reported))
  {}

  lemma ForwardKeepsHeld(h: Host.State, g: nat, wantsAck: bool, cloned: bool, reported: bool)
    requires Held(h) && Host.Known(h, g) && ServerAckId(g, h.acks[g].next + 1) !in h.issued
    ensures Held(Host.ForwardServerEvent(h, g, wantsAck, cloned, reported))
  {}

  lemma ForwardKeepsRuns(h: Host.State, g: nat, wantsAck: bool, cloned: bool, reported: bool)
    requires RunsOnce(h) && Host.Known(h, g)
    ensures RunsOnce(Host.ForwardServerEvent(h, g, wantsAck, cloned, reported))
  {}

  lemma ForwardKeepsCarried(h: Host.State, g: nat, wantsAck: bool, cloned: bool, reported: bool)
    requires Carried(h) && Host.Known(h, g) && ServerAckId(g, h.acks[g].next + 1) !in h.issued
    ensures Carried(Host.ForwardServerEvent(h, g, wantsAck, cloned, reported))
  {}

  lemma ForwardKeepsOpen(h: Host.State, g: nat, wantsAck: bool, cloned: bool, reported: bool)
    requires Open(h) && Host.Known(h, g)
    ensures Open(Host.ForwardServerEvent(h, g, wantsAck, cloned, reported))
  {
    var k := Host.ForwardServerEvent(h, g, wantsAck, cloned, reported);
    forall other: nat, r: nat ensures Pending(k, other, r) <==> Pending(h, other, r) {}
    hide Open, Pending;
    FewerPending(h, k);
  }

  lemma ForwardKeepsTruthful(h: Host.State, g: nat, wantsAck: bool, cloned: bool, reported: bool)
    requires Truthful(h) && Host.Known(h, g)
    ensures Truthful(Host.ForwardServerEvent(h, g, wantsAck, cloned, reported))
  {
    hide Truthful;
    TruthfulSurvives(h, Host.ForwardServerEvent(h, g, wantsAck, cloned, reported));
  }

  lemma ForwardKeepsAckSide(h: Host.State, g: nat, wantsAck: bool, cloned: bool, reported: bool)
    requires AckSide(h) && Host.Known(h, g)
    ensures AckSide(Host.ForwardServerEvent(h, g, wantsAck, cloned, reported))
  {
    hide Tokens, Held, RunsOnce, Truthful, Open, Carried;
    ForwardKeepsTokens(h, g, wantsAck, cloned, reported);
    ForwardKeepsHeld(h, g, wantsAck, cloned, reported);
    ForwardKeepsRuns(h, g, wantsAck, cloned, reported);
    ForwardKeepsCarried(h, g, wantsAck, cloned, reported);
    ForwardKeepsOpen(h, g, wantsAck, cloned, reported);
    ForwardKeepsTruthful(h, g, wantsAck, cloned, reported);
  }
}
