/** Successive server sockets of one client. */
module LifecycleSafety {
  // What holds of them in every run, and the two ways for an application to lose it.

  import opened Common
  import Rooms
  import opened Lifecycle
  import opened LifecycleStanding
  import opened LifecycleOutcomes
  import opened LifecycleTeardown
  import opened LifecycleMembership
  import opened LifecycleRuns
  import opened LifecycleTheorems
  import opened LifecycleHandover
  import opened LifecycleHandoverSteps
  import opened LifecycleHandoverTeardown
  import opened LifecycleHandoverRuns
  import opened LifecycleDelivery
  import opened LifecycleDeliverySteps
  import opened LifecycleRoster
  import opened LifecycleHeld
  import opened LifecycleSuccession
  import opened LifecycleOverlap

  /** A run in which server sockets are disconnected by hand only from their roster. */
  ghost predicate ReachedMannerly(s: State, start: State, events: seq<Event>) {
    Reached(s, start, events) && MannerlyRun(start, events)
  }

  lemma MannerlyFacts(s: State, start: State, events: seq<Event>)
    requires ReachedMannerly(s, start, events)
    ensures Inv(s) && Handover(s) && RosterKept(s)
  {
    hide Inv, Handover, RosterKept, MannerlyRun;
    InitialInv(start);
    InitialHandover(start);
    RunInv(start, events);
    RunHandover(start, events);
    InitialRoster(start);
    RunRoster(start, events);
  }

  lemma InitialRoster(s: State)
    requires Initial(s)
    ensures RosterKept(s)
  {}

  lemma SuccessionFacts(s: State, start: State, events: seq<Event>)
    requires Reached(s, start, events)
    ensures Inv(s) && Succession(s) && Stays(s) && AskedAfter(s)
  {
    hide Inv, Succession, RosterKept, Stays, AskedAfter;
    InitialInv(start);
    InitialSuccession(start);
    InitialDepartures(start);
    RunInv(start, events);
    RunSuccession(start, events);
    RunDepartures(start, events);
  }

  /**
    In every run: what reaches a client outside a drain is stale, a later server socket having
    been attached, if and only if it was sent through another socket than the client's current
    one at that time. A packet whose own outgoing observer ended the connection it was sent
    through is never behind a socket of an attempt that is still alive.
   */
  lemma StaleExactly(s: State, start: State, events: seq<Event>, o: Observation)
    requires Reached(s, start, events) && o in s.log && o.Dispatched?
    ensures !o.owned && !o.drained ==> (o.superseded <==> o.captured != Some(o.via))
    ensures o.owned ==> !o.overtaken
  {
    hide Inv, Stays, AskedAfter, CurrentHighest;
    SuccessionFacts(s, start, events);
    assert Exact(o);
  }

  /**
    What the adapter drains for a socket that is being cleaned up is stale if and only if it
    was sent through an earlier socket than the drained one, or some step of the run attached
    a socket later than its own while the drained one was still around.
   */
  lemma DrainedStaleExactly(s: State, start: State, events: seq<Event>, p: Packet)
    requires Reached(s, start, events) && p in s.packets && p.via < |s.servers|
    requires p.captured.Some? && p.captured.value in s.rooms.draining
    ensures var c := s.servers[p.via].client;
            var k := p.captured.value;
            Superseded(s.attempts, c, p.via) <==>
              p.via < k || OverlapsInRun(start, events, c, p.via, k)
  {
    SuccessionFacts(s, start, events);
    var c := s.servers[p.via].client;
    var k := p.captured.value;
    assert PacketGiven(s.attempts, s.servers, p);
    assert Lingering(s.rooms, k);
    assert SocketGiven(s.attempts, s.servers, k);
    hide Inv, Run, Lingering;
    InitialInv(start);
    if p.via >= k { RunOverlaps(start, events, c, p.via, k); }
  }

  /**
    Nothing is stale in a patient and mannerly run: no socket of a later attempt was attached
    before the dispatch, and none of a live attempt before that of a packet with its own guard.
   */
  lemma NoStaleDispatch(s: State, start: State, events: seq<Event>, o: Observation)
    requires ReachedMannerly(s, start, events) && PatientRun(start, events)
    requires o in s.log && o.Dispatched?
    ensures if o.owned then !o.overtaken else !o.superseded
  {
    hide Inv, Handover, MannerlyRun, PatientRun, OnlyOne, Latest, Inactive, PacketsOk, SendersOk;
    InitialInv(start);
    InitialHandover(start);
    InitialDelivery(start);
    RunDelivery(start, events);
  }

  /**
    The roster of admitted sockets is exact, holding the sockets the server announced whose
    cleanup is not over, if and only if no step of the run registered a socket that had been
    cleaned before.
   */
  lemma RosterIsExact(s: State, start: State, events: seq<Event>)
    requires Reached(s, start, events)
    ensures (forall v: nat :: v in s.rooms.roster <==> WasAdmitted(s.attempts, s.log, v) && Lingering(s.rooms, v))
            <==> NeverAdmitsCleaned(start, events)
  {
    hide Inv, Run, NeverAdmitsCleaned, WasAdmitted, Lingering;
    InitialInv(start);
    InitialRoster(start);
    RunRoster(start, events);
    RunLive(start, events);
  }

  /** While that is so, nothing torn, rejected or cancelled stays on the roster. */
  lemma NothingStaysOnTheRoster(s: State, start: State, events: seq<Event>, v: nat)
    requires Reached(s, start, events) && NeverAdmitsCleaned(start, events)
    ensures Left(s.log, v) ==> v !in s.rooms.roster
    ensures s.stack == [] ==>
              forall a :: 0 <= a < |s.attempts| && Dropped(s.attempts[a]) && s.attempts[a].server == Some(v) ==>
                v !in s.rooms.roster
  {
    RosterIsExact(s, start, events);
    ReachedInv(s, start, events);
    if s.stack == [] { NothingDrained(s); }
    hide Standing, Outcomes, Protocol, Once, Left, Leaving, Rooms.Coherent, FramesInRange, WasAdmitted, NeverAdmitsCleaned;
  }

  /**
    It is so whenever no application disconnects a socket by hand that middleware still
    holds, which can be told from the socket before the call.
   */
  lemma OnlyMeddlingSpoilsTheRoster(start: State, events: seq<Event>)
    requires Initial(start) && NeverMeddles(start, events)
    ensures NeverAdmitsCleaned(start, events)
  {
    InitialInv(start);
    RunHeld(start, events);
  }

  /** Some attempt connected through the socket. */
  ghost predicate WasConnected(attempts: seq<Attempt>, v: nat) {
    exists b :: 0 <= b < |attempts| && attempts[b].connected && attempts[b].server == Some(v)
  }

  /**
    In every run: when an attempt may be given its server socket, another socket of the client
    is still around if and only if it was connected and its `disconnect` is not out.
   */
  lemma LingersExactly(s: State, start: State, events: seq<Event>, a: nat, v: nat)
    requires Reached(s, start, events) && IsPending(s, a) && s.attempts[a].asked
    requires v < |s.servers| && s.servers[v].client == s.attempts[a].client && s.attempts[a].server != Some(v)
    ensures Lingering(s.rooms, v) <==> WasConnected(s.attempts, v) && !Left(s.log, v)
  {
    SuccessionFacts(s, start, events);
    if Left(s.log, v) { LeftIsOver(s, v); }
    if Lingering(s.rooms, v) {
      assert SocketGiven(s.attempts, s.servers, v);
      var b :| 0 <= b < |s.attempts| && s.attempts[b].client == s.servers[v].client && s.attempts[b].server == Some(v);
      CurrentAlone(s, a, b);
      assert Follows(s.attempts, a, b) <==> !s.attempts[b].connected;
    }
    hide Inv, Succession, AskedAfter, Lingering, Left;
  }

  lemma LeftIsOver(s: State, v: nat)
    requires Inv(s) && Left(s.log, v)
    ensures !Lingering(s.rooms, v)
  {
    hide Standing, Outcomes, Protocol, Once, LetGo, Left, Rooms.Coherent, FramesInRange, RoomsInRange;
  }

  /**
    When an ordinary attempt is given its server socket, every earlier socket of the client
    is out of the room indexes and the roster, and nothing of its teardown is left.
   */
  lemma AttachedAlone(s: State, start: State, events: seq<Event>, a: nat, v: nat)
    requires ReachedMannerly(s, start, events)
    requires IsPending(s, a) && s.attempts[a].asked && !s.attempts[a].nested
    requires v < |s.servers| && s.servers[v].client == s.attempts[a].client && s.attempts[a].server != Some(v)
    ensures !Lingering(s.rooms, v) && v !in s.rooms.roster && Nowhere(s.rooms, v)
  {
    MannerlyFacts(s, start, events);
    assert PairFifo(s, a);
    hide Standing, Outcomes, Protocol, Once, LetGo, Homes, Provisional, Claims, Waits, Marks, NeverAfter;
    assert Other(s.attempts, s.servers, s.rooms, a, v) <==> Lingering(s.rooms, v);
    CleanedIsNowhere(s.rooms, v);
  }
}
