/** What the lifecycle promises in every run. */
module LifecycleTheorems {
  import opened Common
  import Rooms
  import opened Lifecycle
  import opened LifecycleStanding
  import opened LifecycleOutcomes
  import opened LifecycleTeardown
  import opened LifecycleMembership
  import opened LifecycleRuns
  import opened LifecycleRejections
  import opened LifecycleGroup
  import opened LifecycleDisconnecting

  /** Some run leads from idle clients to `s`. */
  ghost predicate Reached(s: State, start: State, events: seq<Event>) {
    Initial(start) && s == Run(start, events)
  }

  lemma ReachedInv(s: State, start: State, events: seq<Event>)
    requires Reached(s, start, events)
    ensures Inv(s) && Groups(s)
  {
    hide Inv;
    InitialInv(start);
    RunInv(start, events);
    assert Groups(start);
    RunGroups(start, events);
  }

  /**
    `connected`, the current attempt, the Manager's rosters and `id` always tell the
    same story about every client.
   */
  lemma ClientAttemptAndManagerAgree(s: State, start: State, events: seq<Event>, c: nat)
    requires Reached(s, start, events) && c < |s.clients|
    ensures var client := s.clients[c];
            var attempt := client.attempt;
            && (attempt.Some? ==> attempt.value < |s.attempts| && s.attempts[attempt.value].client == c)
            && (client.connected <==> attempt.Some? && s.attempts[attempt.value].phase == Established)
            && (client.connected <==> c in s.connected)
            && (c in s.pending <==> attempt.Some? && s.attempts[attempt.value].phase == Pending)
            && (client.id.Some? <==> client.connected)
            && (client.connected ==> client.id == s.attempts[attempt.value].server == client.server)
  {
    ReachedInv(s, start, events);
    assert ClientAgrees(s.clients, s.attempts, s.pending, s.connected, c);
  }

  /** At most one report of each kind, ever, about each attempt and each server socket. */
  lemma ReportedOnce(s: State, start: State, events: seq<Event>, i: nat, j: nat)
    requires Reached(s, start, events) && i < j < |s.log|
    ensures !Same(s.log[i], s.log[j])
  {
    hide Standing, Outcomes, Protocol, Membership, LetGo;
    ReachedInv(s, start, events);
  }

  /**
    An attempt that connected was reported first to the server; one that was rejected is
    reported, or about to be, as exactly one error if that error can be encoded, and to
    nobody if not; one that was cancelled before it connected is reported to nobody, and
    nothing about it is queued.
   */
  lemma OneOutcome(s: State, start: State, events: seq<Event>, a: nat)
    requires Reached(s, start, events) && a < |s.attempts|
    ensures forall j :: 0 <= j < |s.log| && s.log[j] == ClientConnect(a) ==> ServerConnection(a) in s.log[..j]
    ensures ClientConnect(a) in s.log ==> ClientError(a) !in s.log && ErrorTask(a) !in s.tasks
    ensures ClientError(a) in s.log || ErrorTask(a) in s.tasks <==> s.attempts[a].phase == Rejected(true)
    ensures !(ClientError(a) in s.log && ErrorTask(a) in s.tasks)
    ensures s.attempts[a].phase == Rejected(false) ==> s.attempts[a].mute && Complete(a, true, false) in events
    ensures s.attempts[a].phase.Rejected? ==> ClientConnect(a) !in s.log
    ensures s.attempts[a].phase == Cancelled && !s.attempts[a].connected ==>
              ClientConnect(a) !in s.log && ClientError(a) !in s.log && ErrorTask(a) !in s.tasks
  {
    hide Protocol, Membership, Once, LetGo, TasksDistinct, TasksInRange, Agreed, Run;
    ReachedInv(s, start, events);
    RunMutes(start, events, a);
  }

  lemma {:induction false} RunAppend(s: State, first: seq<Event>, second: seq<Event>)
    ensures Run(s, first + second) == Run(Run(s, first), second)
    decreases |first|
  {
    if first == [] {
      assert first + second == second;
    } else {
      assert (first + second)[0] == first[0] && (first + second)[1..] == first[1..] + second;
      RunAppend(Step(s, first[0]), first[1..], second);
    }
  }

  /**
    However late the auth or middleware callbacks of a dropped attempt run, it never
    connects; and an attempt never trades the server socket it was given for another.
   */
  lemma OutcomesAreFinal(start: State, first: seq<Event>, second: seq<Event>, a: nat)
    requires Initial(start) && a < |Run(start, first).attempts|
    ensures var s := Run(start, first);
            var q := Run(start, first + second);
            && a < |q.attempts|
            && (s.attempts[a].server.Some? ==> q.attempts[a].server == s.attempts[a].server)
            && (Dropped(s.attempts[a]) ==>
                  Dropped(q.attempts[a]) && q.attempts[a].phase == s.attempts[a].phase && ClientConnect(a) !in q.log)
            && (s.attempts[a].phase == Cancelled ==> ClientError(a) !in q.log)
  {
    hide Standing, Protocol, Membership, Once, LetGo, Run;
    RunAppend(start, first, second);
    var s := Run(start, first);
    ReachedInv(s, start, first);
    ReachedInv(Run(start, first + second), start, first + second);
    RunInv(s, second);
    assert AttemptMoves(s.attempts[a], Run(start, first + second).attempts[a]);
  }

  /**
    Every `disconnect` follows a `disconnecting` of the same socket and finds it in no
    room; once nothing is queued or under way, a socket was torn exactly if both have
    been reported.
   */
  lemma TeardownIsOrderly(s: State, start: State, events: seq<Event>, v: nat)
    requires Reached(s, start, events) && v < |s.servers|
    ensures forall j :: 0 <= j < |s.log| && s.log[j].ServerDisconnect? && s.log[j].server == v ==>
              s.log[j].rooms == {} && Leaving(s.log[..j], v)
    ensures Leaving(s.log, v) ==> s.servers[v].torn
    ensures s.stack == [] && s.tasks == [] ==> (s.servers[v].torn <==> Left(s.log, v))
  {
    hide Standing, Outcomes, Once, LetGo, Leaving, Left, CleanUnique;
    ReachedInv(s, start, events);
    forall j | 0 <= j < |s.log| && s.log[j].ServerDisconnect? && s.log[j].server == v ensures s.log[j].rooms == {} {
      assert s.log[j] in s.log;
    }
  }

  /** Out of every room, every index and, as far as the indexes go, unknown. */
  ghost predicate Nowhere(rooms: Rooms.State, v: nat) {
    v !in rooms.sids && forall room :: v !in Rooms.Members(rooms, room)
  }

  /**
    The views of room membership stay coherent; a socket whose `disconnect` is out, or
    whose attempt was rejected or cancelled, is in no room of the adapter. Its own view
    is empty too, except inside the removal hook of its adapter.
   */
  lemma RoomsStayCoherent(s: State, start: State, events: seq<Event>, v: nat)
    requires Reached(s, start, events)
    ensures Rooms.Coherent(s.rooms)
    ensures s.stack == [] ==> Rooms.Agree(s.rooms)
    ensures Left(s.log, v) ==> Nowhere(s.rooms, v) && Rooms.View(s.rooms, v) == {}
    ensures forall a :: 0 <= a < |s.attempts| && Dropped(s.attempts[a]) && s.attempts[a].server == Some(v) ==>
              Nowhere(s.rooms, v) && (s.stack == [] ==> Rooms.View(s.rooms, v) == {})
  {
    hide Standing, Outcomes, Protocol, Once, Leaving, Left, Rooms.Coherent, Rooms.Agree, FramesInRange;
    ReachedInv(s, start, events);
    if v in s.rooms.cleaned { CleanedIsNowhere(s.rooms, v); }
    if s.stack == [] {
      assert s.rooms.draining == {};
      Rooms.AgreeExactly(s.rooms);
    }
  }

  lemma CleanedIsNowhere(rooms: Rooms.State, v: nat)
    requires Rooms.Coherent(rooms) && v in rooms.cleaned
    ensures Nowhere(rooms, v) && (v !in rooms.draining ==> Rooms.View(rooms, v) == {})
  {
    forall room ensures v !in Rooms.Members(rooms, room) {
      assert v in Rooms.Members(rooms, room) <==> room in Rooms.Indexed(rooms, v);
    }
  }

  /**
    Whatever step reports `disconnecting`, a call, the microtask of a teardown or a group
    operation: the report names exactly the rooms whose members include the socket, before
    the step and after it.
   */
  lemma DisconnectingSeesItsRooms(s: State, start: State, events: seq<Event>, e: Event, v: nat, rooms: set<Rooms.Room>)
    requires Reached(s, start, events) && Step(s, e).log == s.log + [ServerDisconnecting(v, rooms)]
    ensures forall room :: room in rooms <==> v in Rooms.Members(s.rooms, room)
    ensures forall room :: room in rooms <==> v in Rooms.Members(Step(s, e).rooms, room)
  {
    hide Inv, Groups, Step, Run;
    ReachedInv(s, start, events);
    InitialInv(start);
    RunRested(start, events);
    StepHonest(s, e);
  }

  /** Disconnecting a socket by hand reports `disconnecting` at once, unless it has been torn. */
  lemma DisconnectServerReports(s: State, start: State, events: seq<Event>, v: nat)
    requires Reached(s, start, events) && v < |s.servers| && !s.servers[v].torn
    ensures var q := Step(s, DisconnectServer(v));
            && q.log == s.log + [ServerDisconnecting(v, Rooms.View(s.rooms, v))]
            && q.rooms == s.rooms
            && (forall room :: room in Rooms.View(s.rooms, v) <==> v in Rooms.Members(q.rooms, room))
  {
    hide Standing, Outcomes, Once, LetGo, Leaving, Left;
    ReachedInv(s, start, events);
    assert v in s.rooms.draining ==> InClean(s.stack, v);
    assert Rooms.View(s.rooms, v) == Rooms.Indexed(s.rooms, v);
  }

  /** At most one server socket owns a client's connection, and it is a socket of that client. */
  lemma OwnerIsUnique(s: State, start: State, events: seq<Event>, c: nat, v: nat, w: nat)
    requires Reached(s, start, events) && Owns(s, c, v)
    ensures s.servers[v].client == c && (Owns(s, c, w) ==> w == v)
  {
    hide Outcomes, Protocol, Membership, Once, LetGo;
    ReachedInv(s, start, events);
    assert ClientAgrees(s.clients, s.attempts, s.pending, s.connected, c);
  }

  /** When the Manager-wide disconnect of `v` ends, no member was missed. */
  lemma GroupReachesEveryMember(s: State, start: State, events: seq<Event>, encodes: bool)
    requires Reached(s, start, events)
    requires s.stack != [] && s.stack[0].Group? && s.stack[0].next >= |s.stack[0].order|
    ensures var v := s.stack[0].initiator;
            var q := Step(s, Return(encodes));
            v < |q.servers| && q.servers[v].torn && GroupDone(q, ManagerOf(s, v), v)
  {
    hide Inv, Groups, GroupDone, Step;
    ReachedInv(s, start, events);
    GroupFinishes(s, encodes);
  }
}
