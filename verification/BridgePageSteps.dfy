/**
  The page alone: every call and every message received keeps what is known about the page,
  about the messages it has posted, and about the generation it is connected at. The host
  plays no part here; the two sides meet in `BridgeSafety`.
 */
module BridgePageSteps {
  import opened Common
  import opened BridgeMessages
  import opened BridgeInvariant
  import Page = BridgePage
  import Host = BridgeHost

  /** Outside of CONNECTED a step keeps the generation or gives it up. */
  ghost predicate KeepsOrDrops(p: Page.State, q: Page.State) {
    q.generation == None || q.generation == p.generation
  }

  lemma ConnectKeepsSide(p: Page.State, cloned: bool, requests: seq<nat>, records: Records, read: nat)
    requires PageSide(p, requests, records, read)
    ensures var q := Page.ConnectCall(p, cloned); PageSide(q, requests, records, read) && KeepsOrDrops(p, q)
  {}

  lemma DisconnectKeepsSide(p: Page.State, requests: seq<nat>, records: Records, read: nat)
    requires PageSide(p, requests, records, read)
    ensures var q := Page.DisconnectCall(p); PageSide(q, requests, records, read) && KeepsOrDrops(p, q)
  {}

  lemma PostEmissionKeepsSide(
    p: Page.State, e: Page.Emission, g: nat, cloned: bool, requests: seq<nat>, records: Records, read: nat)
    requires PageSide(p, requests, records, read) && p.generation == Some(g)
    ensures var q := Page.PostEmission(p, e, g, cloned);
            PageSide(q, requests, records, read) && q.generation == p.generation
  {}

  lemma EmitKeepsSide(
    p: Page.State, wantsAck: bool, cloned: bool, requests: seq<nat>, records: Records, read: nat)
    requires PageSide(p, requests, records, read)
    ensures var q := Page.EmitCall(p, wantsAck, cloned); PageSide(q, requests, records, read) && KeepsOrDrops(p, q)
  {
    hide PageMessages, Fresh;
    var q := p.(emissions := p.emissions + 1);
    if q.connected && q.generation.Some? && !q.disconnecting {
      PostEmissionKeepsSide(q, Page.Emission(p.emissions, wantsAck), q.generation.value, cloned, requests, records, read);
    }
  }

  lemma {:induction false} FlushKeepsSide(
    p: Page.State, g: nat, rest: seq<Page.Emission>, failing: nat, requests: seq<nat>, records: Records, read: nat)
    requires PageSide(p, requests, records, read)
    ensures var q := Page.FlushLoop(p, g, rest, failing);
            PageSide(q, requests, records, read) && KeepsOrDrops(p, q)
    decreases |rest|
  {
    if rest != [] && Page.MayFlush(p, g) {
      if failing == 0 {
        var q := p.(frames := [Page.Flush(g, rest[1..])] + p.frames);
        PostEmissionKeepsSide(q, rest[0], g, false, requests, records, read);
      } else {
        PostEmissionKeepsSide(p, rest[0], g, true, requests, records, read);
        FlushKeepsSide(Page.PostEmission(p, rest[0], g, true), g, rest[1..], failing - 1, requests, records, read);
      }
    }
  }

  lemma PopKeepsShape(p: Page.State)
    requires PageShape(p) && p.frames != []
    ensures PageShape(p.(frames := p.frames[1..]))
    ensures p.frames[0] == Page.ConnectFailed ==>
              PageShape(p.(frames := p.frames[1..], connecting := false, request := None)) && p.generation == None
  {}

  lemma ResumeKeepsSide(p: Page.State, failing: nat, requests: seq<nat>, records: Records, read: nat)
    requires PageSide(p, requests, records, read)
    ensures var q := Page.Resume(p, failing); PageSide(q, requests, records, read) && KeepsOrDrops(p, q)
  {
    hide PageShape, PageMessages, Fresh;
    if p.frames != [] {
      PopKeepsShape(p);
      var q := p.(frames := p.frames[1..]);
      match p.frames[0]
      case ConnectFailed =>
      case EmissionFailed(None) =>
      case EmissionFailed(Some(a)) => SameShape(q, q.(pendingClientAcks := q.pendingClientAcks - {a}));
      case Flush(g, rest) => FlushKeepsSide(q, g, rest, failing, requests, records, read);
    }
  }

  lemma SameShape(p: Page.State, q: Page.State)
    requires PageShape(p) && q == p.(pendingClientAcks := q.pendingClientAcks)
    ensures PageShape(q)
  {}

  lemma AcknowledgeKeepsSide(
    p: Page.State, r: nat, payload: Payload, cloned: bool, requests: seq<nat>, records: Records, read: nat)
    requires PageSide(p, requests, records, read) && r < |p.references|
    ensures var q := Page.AcknowledgeCall(p, r, payload, cloned);
            PageSide(q, requests, records, read) && KeepsOrDrops(p, q)
  {}

  lemma ReceiveConnectedKeepsSide(
    p: Page.State, request: nat, g: nat, failing: nat, requests: seq<nat>, records: Records, read: nat)
    requires PageSide(p, requests, records, read) && p.frames == []
    requires 1 <= g <= |requests| && request == requests[g - 1] && g in records && records[g].announced
    ensures var q := Page.ReceiveConnected(p, request, g, failing);
            && PageSide(q, requests, records, read)
            && (KeepsOrDrops(p, q) || q.generation == Some(g))
  {
    if Some(request) == p.request && p.connecting {
      var q := p.(generation := Some(g), connected := true, connecting := false, ackSequence := 0);
      if q.disconnectAfterConnect {
        DisconnectKeepsSide(q.(disconnectAfterConnect := false), requests, records, read);
      } else {
        FlushKeepsSide(q.(outgoing := []), g, q.outgoing, failing, requests, records, read);
      }
    }
  }

  lemma ReceiveKeepsSide(
    p: Page.State, m: HostMessage, failing: nat, requests: seq<nat>, records: Records,
    active: Option<nat>, read: nat)
    requires PageSide(p, requests, records, read) && p.frames == [] && FromHost(m, requests, records, active)
    ensures var q := Page.Receive(p, m, failing);
            && PageSide(q, requests, records, read)
            && (KeepsOrDrops(p, q) || (m.Connected? && q.generation == Some(m.generation)))
            && (m.Disconnected? ==> q.generation != Some(m.generation))
  {
    hide PageMessages, Fresh;
    match m
    case Connected(r, g) =>
      hide *;
      ReceiveConnectedKeepsSide(p, r, g, failing, requests, records, read);
    case _ =>
  }
}
