/**
  Server events on the page: what listeners see, and what their acknowledgements send back
  while the connection that brought the event is still the open one.
 */
module BridgePageAcks {
  import opened Common
  import opened BridgeMessages
  import opened BridgeInvariant
  import Page = BridgePage
  import Host = BridgeHost

  ghost predicate Open(p: Page.State) {
    && (forall r :: r in p.pendingServerAcks ==> r < |p.references| && r !in p.answers)
    && (forall r :: r in p.answers ==> r < |p.references|)
  }

  ghost predicate Answered(p: Page.State, ackId: AckId, payload: Payload) {
    exists r :: 0 <= r < |p.references| && p.references[r].ackId == ackId && r in p.answers && p.answers[r] == payload
  }

  ghost predicate Truthful(p: Page.State) {
    forall i :: 0 <= i < |p.posted| && p.posted[i].AckServer? ==> Answered(p, p.posted[i].ackId, p.posted[i].payload)
  }

  /** Each reference belongs to a SERVER_EVENT that was received. */
  ghost predicate Born(reference: Page.Reference, posted: seq<HostMessage>, read: nat) {
    exists i :: 0 <= i < read && i < |posted|
             && posted[i] == ServerEvent(reference.generation, reference.event, Some(reference.ackId))
  }

  ghost predicate AllBorn(references: seq<Page.Reference>, posted: seq<HostMessage>, read: nat) {
    forall r :: 0 <= r < |references| ==> Born(references[r], posted, read)
  }

  /** What listeners saw was posted by that generation's connection, for the CONNECT that was the latest. */
  ghost predicate Sourced(d: Page.Dispatched, posted: seq<HostMessage>, read: nat, requests: seq<nat>) {
    && 1 <= d.generation <= |requests| && requests[d.generation - 1] == d.request
    && exists i :: 0 <= i < read && i < |posted| && posted[i].ServerEvent?
                && posted[i].generation == d.generation && posted[i].event == d.event
  }

  ghost predicate Shown(dispatched: seq<Page.Dispatched>, posted: seq<HostMessage>, read: nat, requests: seq<nat>) {
    && (forall k :: 0 <= k < |dispatched| ==> Sourced(dispatched[k], posted, read, requests))
    && (forall k, l :: 0 <= k < l < |dispatched| ==> dispatched[k].event < dispatched[l].event)
  }

  /** A step that shows no server event and answers none, though it may drop references. */
  ghost predicate Quiet(p: Page.State, q: Page.State) {
    && q.references == p.references && q.answers == p.answers && q.dispatched == p.dispatched
    && (q.pendingServerAcks == p.pendingServerAcks || q.pendingServerAcks == {})
    && p.posted <= q.posted
    && (forall i :: |p.posted| <= i < |q.posted| ==> !q.posted[i].AckServer?)
  }

  lemma AnsweredSurvives(p: Page.State, q: Page.State, ackId: AckId, payload: Payload)
    requires Answered(p, ackId, payload) && p.references <= q.references
    requires forall r :: r in p.answers ==> r in q.answers && q.answers[r] == p.answers[r]
    ensures Answered(q, ackId, payload)
  {
    var r :| 0 <= r < |p.references| && p.references[r].ackId == ackId && r in p.answers && p.answers[r] == payload;
    assert q.references[r] == p.references[r];
  }

  lemma TruthfulSurvives(p: Page.State, q: Page.State)
    requires Truthful(p) && p.references <= q.references && p.posted <= q.posted
    requires forall r :: r in p.answers ==> r in q.answers && q.answers[r] == p.answers[r]
    requires forall i :: |p.posted| <= i < |q.posted| && q.posted[i].AckServer? ==>
               Answered(q, q.posted[i].ackId, q.posted[i].payload)
    ensures Truthful(q)
  {
    forall i | 0 <= i < |q.posted| && q.posted[i].AckServer?
      ensures Answered(q, q.posted[i].ackId, q.posted[i].payload)
    {
      if i < |p.posted| { AnsweredSurvives(p, q, p.posted[i].ackId, p.posted[i].payload); }
    }
  }

  lemma QuietKeeps(p: Page.State, q: Page.State)
    requires Quiet(p, q) && Open(p) && Truthful(p)
    ensures Open(q) && Truthful(q)
  {
    TruthfulSurvives(p, q);
  }

  /** A quiet step that runs no callback. */
  ghost predicate Silent(p: Page.State, q: Page.State) {
    Quiet(p, q) && q.ran == p.ran
  }

  lemma SilentTransitive(p: Page.State, q: Page.State, r: Page.State)
    requires Silent(p, q) && Silent(q, r)
    ensures Silent(p, r)
  {}

  lemma PostIsSilent(p: Page.State, e: Page.Emission, g: nat, cloned: bool)
    ensures Silent(p, Page.PostEmission(p, e, g, cloned))
  {}

  lemma PlainIsSilent(p: Page.State, q: Page.State)
    requires q == p.(
      connected := q.connected, connecting := q.connecting, disconnecting := q.disconnecting,
      disconnectAfterConnect := q.disconnectAfterConnect, requestSequence := q.requestSequence,
      ackSequence := q.ackSequence, request := q.request, generation := q.generation, outgoing := q.outgoing,
      pendingClientAcks := q.pendingClientAcks, frames := q.frames, emissions := q.emissions)
    ensures Silent(p, q)
  {}

  lemma {:induction false} FlushIsSilent(p: Page.State, g: nat, rest: seq<Page.Emission>, failing: nat)
    ensures Silent(p, Page.FlushLoop(p, g, rest, failing))
    decreases |rest|
  {
    hide Silent;
    var q := Page.FlushLoop(p, g, rest, failing);
    if rest == [] || !Page.MayFlush(p, g) {
      PlainIsSilent(p, q);
    } else if failing == 0 {
      var b := p.(frames := [Page.Flush(g, rest[1..])] + p.frames);
      PlainIsSilent(p, b);
      PostIsSilent(b, rest[0], g, false);
      SilentTransitive(p, b, q);
    } else {
      var b := Page.PostEmission(p, rest[0], g, true);
      PostIsSilent(p, rest[0], g, true);
      FlushIsSilent(b, g, rest[1..], failing - 1);
      SilentTransitive(p, b, q);
    }
  }

  lemma ConnectIsSilent(p: Page.State, cloned: bool)
    ensures Silent(p, Page.ConnectCall(p, cloned))
  {}

  lemma DisconnectIsSilent(p: Page.State)
    ensures Silent(p, Page.DisconnectCall(p))
  {}

  lemma EmitIsSilent(p: Page.State, wantsAck: bool, cloned: bool)
    ensures Silent(p, Page.EmitCall(p, wantsAck, cloned))
  {
    hide Silent;
    var e := Page.Emission(p.emissions, wantsAck);
    var q := p.(emissions := p.emissions + 1);
    PlainIsSilent(p, q);
    PlainIsSilent(p, q.(outgoing := q.outgoing + [e]));
    if p.generation.Some? {
      PostIsSilent(q, e, p.generation.value, cloned);
      SilentTransitive(p, q, Page.PostEmission(q, e, p.generation.value, cloned));
    }
  }

  lemma PopIsSilent(p: Page.State, failing: nat)
    requires p.frames != [] && !p.frames[0].Flush?
    ensures Silent(p, Page.Resume(p, failing))
  {
    hide Page.FlushLoop, Silent;
    var q := p.(frames := p.frames[1..]);
    PlainIsSilent(p, q.(connecting := false, request := None));
    match p.frames[0]
    case ConnectFailed =>
    case EmissionFailed(ackId) =>
      PlainIsSilent(p, q);
      if ackId.Some? { PlainIsSilent(p, q.(pendingClientAcks := q.pendingClientAcks - {ackId.value})); }
  }

  lemma ResumeIsSilent(p: Page.State, failing: nat)
    ensures Silent(p, Page.Resume(p, failing))
  {
    hide Silent, Page.FlushLoop;
    if p.frames == [] {
      PlainIsSilent(p, p);
    } else if p.frames[0].Flush? {
      var b := p.(frames := p.frames[1..]);
      PlainIsSilent(p, b);
      FlushIsSilent(b, p.frames[0].generation, p.frames[0].rest, failing);
      SilentTransitive(p, b, Page.Resume(p, failing));
    } else {
      PopIsSilent(p, failing);
    }
  }

  lemma ReceiveConnectedIsSilent(p: Page.State, request: nat, g: nat, failing: nat)
    ensures Silent(p, Page.ReceiveConnected(p, request, g, failing))
  {
    hide Silent;
    var r := Page.ReceiveConnected(p, request, g, failing);
    if Some(request) == p.request && p.connecting {
      var q := p.(generation := Some(g), connected := true, connecting := false, ackSequence := 0);
      if q.disconnectAfterConnect {
        var b := q.(disconnectAfterConnect := false);
        PlainIsSilent(p, b);
        DisconnectIsSilent(b);
        SilentTransitive(p, b, r);
      } else {
        var b := q.(outgoing := []);
        PlainIsSilent(p, b);
        FlushIsSilent(b, g, q.outgoing, failing);
        SilentTransitive(p, b, r);
      }
    } else {
      PlainIsSilent(p, p);
    }
  }

  lemma ReceiveIsSilent(p: Page.State, m: HostMessage, failing: nat)
    requires !m.ServerEvent? && !m.AckClient?
    ensures Silent(p, Page.Receive(p, m, failing))
  {
    hide Page.ReceiveConnected;
    if m.Connected? { ReceiveConnectedIsSilent(p, m.request, m.generation, failing); }
  }

  lemma ReceiveAckIsQuiet(p: Page.State, ackId: AckId, payload: Payload)
    ensures Quiet(p, Page.ReceiveAcknowledgement(p, ackId, payload))
  {}

  lemma AcknowledgeKeeps(p: Page.State, r: nat, payload: Payload, cloned: bool)
    requires Open(p) && Truthful(p) && r < |p.references|
    ensures var q := Page.AcknowledgeCall(p, r, payload, cloned); Open(q) && Truthful(q)
  {
    var q := Page.AcknowledgeCall(p, r, payload, cloned);
    if r in p.pendingServerAcks {
      assert Answered(q, q.references[r].ackId, payload);
      TruthfulSurvives(p, q);
    }
  }

  lemma ReceiveServerEventKeeps(p: Page.State, g: nat, event: nat, ackId: Option<AckId>)
    requires Open(p) && Truthful(p)
    ensures var q := Page.ReceiveServerEvent(p, g, event, ackId); Open(q) && Truthful(q)
  {
    hide Truthful;
    TruthfulSurvives(p, Page.ReceiveServerEvent(p, g, event, ackId));
  }

  lemma BornLater(references: seq<Page.Reference>, posted: seq<HostMessage>, longer: seq<HostMessage>, read: nat, next: nat)
    requires AllBorn(references, posted, read) && posted <= longer && read <= next
    ensures AllBorn(references, longer, next)
  {
    forall r | 0 <= r < |references|
      ensures Born(references[r], longer, next)
    {
      var i :| 0 <= i < read && i < |posted|
            && posted[i] == ServerEvent(references[r].generation, references[r].event, Some(references[r].ackId));
      assert longer[i] == posted[i];
    }
  }

  lemma ShownLater(
    dispatched: seq<Page.Dispatched>, posted: seq<HostMessage>, longer: seq<HostMessage>,
    read: nat, next: nat, requests: seq<nat>, more: seq<nat>)
    requires Shown(dispatched, posted, read, requests) && posted <= longer && read <= next && requests <= more
    ensures Shown(dispatched, longer, next, more)
  {
    forall k | 0 <= k < |dispatched|
      ensures Sourced(dispatched[k], longer, next, more)
    {
      var d := dispatched[k];
      var i :| 0 <= i < read && i < |posted| && posted[i].ServerEvent?
            && posted[i].generation == d.generation && posted[i].event == d.event;
      assert longer[i] == posted[i];
    }
  }

  lemma BornNext(p: Page.State, posted: seq<HostMessage>, read: nat)
    requires AllBorn(p.references, posted, read) && read < |posted| && posted[read].ServerEvent?
    ensures var m := posted[read];
            AllBorn(Page.ReceiveServerEvent(p, m.generation, m.event, m.serverAck).references, posted, read + 1)
  {
    var m := posted[read];
    BornLater(p.references, posted, posted, read, read + 1);
    if m.serverAck.Some? {
      assert Born(Page.Reference(m.generation, m.serverAck.value, m.event), posted, read + 1);
    }
  }

  /** Showing the event of the message just read. */
  lemma ShowNext(p: Page.State, posted: seq<HostMessage>, read: nat, requests: seq<nat>)
    requires Shown(p.dispatched, posted, read, requests)
    requires read < |posted| && posted[read].ServerEvent?
    requires 1 <= posted[read].generation <= |requests| && requests[posted[read].generation - 1] == p.requestSequence
    requires forall i, j :: 0 <= i < j < |posted| && posted[i].ServerEvent? && posted[j].ServerEvent? ==>
               posted[i].event < posted[j].event
    ensures var m := posted[read];
            Shown(Page.ReceiveServerEvent(p, m.generation, m.event, m.serverAck).dispatched, posted, read + 1, requests)
  {
    var m := posted[read];
    var d := Page.Dispatched(m.event, m.generation, p.requestSequence);
    ShownLater(p.dispatched, posted, posted, read, read + 1, requests, requests);
    SourcedByNext(posted, read, requests, p.requestSequence);
    EarlierEvents(p.dispatched, posted, read, requests);
    hide Shown;
    ShowOneMore(p.dispatched, d, posted, read + 1, requests);
  }

  lemma SourcedByNext(posted: seq<HostMessage>, read: nat, requests: seq<nat>, request: nat)
    requires read < |posted| && posted[read].ServerEvent?
    requires 1 <= posted[read].generation <= |requests| && requests[posted[read].generation - 1] == request
    ensures Sourced(Page.Dispatched(posted[read].event, posted[read].generation, request), posted, read + 1, requests)
  {}

  lemma EarlierEvents(dispatched: seq<Page.Dispatched>, posted: seq<HostMessage>, read: nat, requests: seq<nat>)
    requires Shown(dispatched, posted, read, requests) && read < |posted| && posted[read].ServerEvent?
    requires forall i, j :: 0 <= i < j < |posted| && posted[i].ServerEvent? && posted[j].ServerEvent? ==>
               posted[i].event < posted[j].event
    ensures forall k :: 0 <= k < |dispatched| ==> dispatched[k].event < posted[read].event
  {
    forall k | 0 <= k < |dispatched|
      ensures dispatched[k].event < posted[read].event
    {
      assert Sourced(dispatched[k], posted, read, requests);
    }
  }

  lemma ShowOneMore(dispatched: seq<Page.Dispatched>, d: Page.Dispatched, posted: seq<HostMessage>, read: nat, requests: seq<nat>)
    requires Shown(dispatched, posted, read, requests) && Sourced(d, posted, read, requests)
    requires forall k :: 0 <= k < |dispatched| ==> dispatched[k].event < d.event
    ensures Shown(dispatched + [d], posted, read, requests)
  {
    hide Sourced;
  }
}
