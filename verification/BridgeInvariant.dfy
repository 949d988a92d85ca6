/**
  What holds in every reachable state of the bridge, one group of facts at a time: about the
  records of the host, about the messages in each channel, and about the page in relation
  to both.
 */
module BridgeInvariant {
  import opened Common
  import opened BridgeMessages
  import opened BridgeSystem
  import Page = BridgePage
  import Host = BridgeHost

  type Records = map<nat, Host.Connection>

  /** CONNECT requests were taken in the order they were made. */
  ghost predicate Increasing(requests: seq<nat>) {
    forall i, j :: 0 <= i < j < |requests| ==> requests[i] < requests[j]
  }

  /** The active connection is the latest and every other record is finished. */
  ghost predicate Registry(requests: seq<nat>, records: Records, active: Option<nat>) {
    && (active.Some? ==> active.value == |requests| && active.value in records)
    && (forall g :: g in records ==>
          && 1 <= g <= |requests|
          && records[g].request == requests[g - 1]
          && (records[g].finished <==> active != Some(g)))
  }

  /** A finished record holds no acknowledgement. */
  ghost predicate Released(records: Records, acks: map<nat, Host.Acks>) {
    && acks.Keys == records.Keys
    && (forall g :: g in acks && g in records && records[g].finished ==>
          acks[g].server == map[] && acks[g].client == {})
  }

  ghost predicate HostShape(h: Host.State) {
    && |h.requests| == h.nextGeneration
    && Increasing(h.requests)
    && Registry(h.requests, h.connections, h.active)
    && Released(h.connections, h.acks)
    && h.errors == []
  }

  ghost predicate PageShape(p: Page.State) {
    && (p.connecting ==> !p.connected && !p.disconnecting && p.generation == None && p.request.Some?)
    && (p.connected ==> !p.disconnecting && p.generation.Some?)
    && (p.disconnecting ==> p.generation.Some?)
    && (p.generation.Some? ==> p.request.Some? && Page.ConnectFailed !in p.frames)
    && (p.request.Some? ==> p.request.value == p.requestSequence)
  }

  /** Generations and requests known to the page are the host's. */
  ghost predicate Linked(
    generation: Option<nat>, request: Option<nat>, sequence: nat, requests: seq<nat>, records: Records)
  {
    && (generation.Some? ==>
          && 1 <= generation.value <= |requests|
          && request == Some(requests[generation.value - 1])
          && generation.value in records && records[generation.value].announced)
    && (forall i :: 0 <= i < |requests| ==> requests[i] <= sequence)
  }

  /** A message of the page names only generations and owners that the host issued. */
  ghost predicate FromPage(m: PageMessage, sequence: nat, requests: seq<nat>) {
    match m
    case Connect(r) => r <= sequence
    case Disconnect(r, g) => 1 <= g <= |requests| && r == requests[g - 1]
    case ClientEvent(g, _, _) => 1 <= g <= |requests|
    case AckServer(g, _, _) => 1 <= g <= |requests|
  }

  ghost predicate PageMessages(posted: seq<PageMessage>, sequence: nat, requests: seq<nat>) {
    && (forall i :: 0 <= i < |posted| ==> FromPage(posted[i], sequence, requests))
    && (forall i, j :: 0 <= i < j < |posted| && posted[i].Connect? && posted[j].Connect? ==>
          posted[i].request < posted[j].request)
  }

  /** Requests still in flight are newer than all that the host took. */
  ghost predicate Fresh(posted: seq<PageMessage>, read: nat, requests: seq<nat>) {
    forall i, k :: read <= i < |posted| && posted[i].Connect? && 0 <= k < |requests| ==>
      requests[k] < posted[i].request
  }

  ghost predicate FromHost(m: HostMessage, requests: seq<nat>, records: Records, active: Option<nat>) {
    && (Tag(m).Some? ==> 1 <= Tag(m).value <= |requests|)
    && (m.Connected? ==>
          && m.request == requests[m.generation - 1]
          && m.generation in records && records[m.generation].announced)
    && (Terminal(m) ==> m.request == requests[m.generation - 1] && active != Some(m.generation))
    && (m.Disconnected? ==> m.generation in records)
  }

  ghost predicate HostMessages(
    posted: seq<HostMessage>, requests: seq<nat>, records: Records, active: Option<nat>)
  {
    forall i :: 0 <= i < |posted| ==> FromHost(posted[i], requests, records, active)
  }

  /** Nothing tagged with a generation follows its DISCONNECTED or CONNECT_ERROR. */
  ghost predicate NothingAfterTerminal(posted: seq<HostMessage>) {
    forall i, j :: 0 <= i < j < |posted| && Terminal(posted[i]) ==> Tag(posted[j]) != Some(posted[i].generation)
  }

  /** How an announced connection ends. */
  ghost predicate Endings(posted: seq<HostMessage>, records: Records, active: Option<nat>, silenced: set<nat>) {
    && (forall g :: g in records && records[g].announced ==>
          active == Some(g) || g in silenced || Disconnected(records[g].request, g) in posted)
    && (forall g :: g in silenced ==>
          g in records && records[g].finished && Disconnected(records[g].request, g) !in posted)
  }

  /** The page has given up every generation whose DISCONNECTED it received. */
  ghost predicate Left(posted: seq<HostMessage>, read: nat, generation: Option<nat>) {
    forall i :: 0 <= i < read && i < |posted| && posted[i].Disconnected? ==> generation != Some(posted[i].generation)
  }

  ghost predicate HostMessagesOf(h: Host.State) {
    HostMessages(h.posted, h.requests, h.connections, h.active) && NothingAfterTerminal(h.posted)
  }

  ghost predicate EndingsOf(h: Host.State) {
    Endings(h.posted, h.connections, h.active, h.silenced)
  }

  ghost predicate HostBase(h: Host.State) {
    HostShape(h) && HostMessagesOf(h) && EndingsOf(h)
  }

  /** What ties the page to the host, apart from what it has received. */
  ghost predicate PageSide(p: Page.State, requests: seq<nat>, records: Records, hostRead: nat) {
    && hostRead <= |p.posted|
    && PageShape(p)
    && Linked(p.generation, p.request, p.requestSequence, requests, records)
    && PageMessages(p.posted, p.requestSequence, requests)
    && Fresh(p.posted, hostRead, requests)
  }

  ghost predicate Base(s: System) {
    && HostBase(s.host)
    && PageSide(s.page, s.host.requests, s.host.connections, s.hostRead)
    && s.pageRead <= |s.host.posted|
    && Left(s.host.posted, s.pageRead, s.page.generation)
  }
}
