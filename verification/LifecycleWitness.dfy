/** Why the safety results need their conditions. */
module LifecycleWitness {
  // One run for each condition.

  import opened Common
  import Rooms
  import opened Lifecycle
  import opened LifecycleTeardown
  import opened LifecycleHandover
  import opened LifecycleHandoverRuns
  import opened LifecycleDelivery
  import opened LifecycleDeliverySteps
  import opened LifecycleTheorems
  import opened LifecycleRoster
  import opened LifecycleHeld

  /** One idle client. */
  const IDLE := State([Client(0, 0, false, None, None, None)], [], [], {}, {}, {}, Rooms.EMPTY, [], [], [], [])

  const FRESH_SERVER := Server(0, false, true, false, false)
  const LIVE_SERVER := Server(0, true, true, false, false)

  function Awaiting(server: Option<nat>, asked: bool, completed: bool, nested: bool): Attempt {
    Attempt(0, Pending, server, asked, completed, false, nested, false)
  }

  // A connection through the first server socket.

  /** Connect, pair, authenticate, then admit and establish. */
  const ASK := [Connect(0), Microtask, Authenticate(0), Complete(0, false, true)]
  const ADMIT := [Microtask, Return(true), Return(true)]

  const ASKED := State(
    [Client(0, 0, false, None, None, Some(0))], [Awaiting(Some(0), true, true, false)], [FRESH_SERVER],
    {0}, {}, {}, Rooms.EMPTY, [DoneTask(0, false)], [], [], [])

  const CONNECTED := State(
    [Client(0, 0, true, Some(0), Some(0), Some(0))], [Attempt(0, Established, Some(0), true, true, false, false, true)],
    [LIVE_SERVER], {}, {0}, {}, Rooms.State(map[0 := {0}], map[0 := {0}], map[0 := {0}], {}, {}, {0}),
    [], [], [], [ServerConnection(0), ClientConnect(0)])

  lemma FirstAsks()
    ensures Run(IDLE, ASK) == ASKED
  {
    var s1 := Step(IDLE, ASK[0]);
    assert s1 == IDLE.(clients := [Client(0, 0, false, None, None, Some(0))],
                       attempts := [Awaiting(None, false, false, false)], pending := {0}, tasks := [PairTask(0)]);
    var s2 := Step(s1, ASK[1]);
    assert s2 == s1.(tasks := [], attempts := [Awaiting(None, true, false, false)]);
    var s3 := Step(s2, ASK[2]);
    assert s3 == s2.(attempts := [Awaiting(Some(0), true, false, false)], servers := [FRESH_SERVER]);
    assert Step(s3, ASK[3]) == ASKED;
  }

  lemma OwnRoom(r: Rooms.State, v: nat)
    requires v !in r.rooms && v !in r.sids && v !in r.views && v !in r.cleaned
    ensures var q := Rooms.Join(Rooms.Register(r, v), v, v);
            && q.rooms == r.rooms[v := {v}] && q.sids == r.sids[v := {v}] && q.views == r.views[v := {v}]
            && q.roster == r.roster + {v} && q.cleaned == r.cleaned && q.draining == r.draining
  {
    var p := Rooms.Register(r, v);
    assert Rooms.Members(p, v) + {v} == {v} && Rooms.Indexed(p, v) + {v} == {v} && Rooms.View(p, v) + {v} == {v};
  }

  lemma FirstAdmits()
    ensures Step(ASKED, Microtask) == ASKED.(tasks := [], rooms := CONNECTED.rooms, servers := [LIVE_SERVER],
                                             log := [ServerConnection(0)], stack := [AfterConnection(0)])
  {
    OwnRoom(Rooms.EMPTY, 0);
    var rooms := Rooms.Join(Rooms.Register(Rooms.EMPTY, 0), 0, 0);
    assert rooms.rooms == map[0 := {0}] && rooms.sids == map[0 := {0}] && rooms.views == map[0 := {0}];
    assert rooms.roster == {0};
  }

  lemma FirstConnects()
    ensures Run(ASKED, ADMIT) == CONNECTED
  {
    FirstAdmits();
    var s5 := ASKED.(tasks := [], rooms := CONNECTED.rooms, servers := [LIVE_SERVER],
                     log := [ServerConnection(0)], stack := [AfterConnection(0)]);
    assert Step(ASKED, ADMIT[0]) == s5;
    var s6 := Step(s5, ADMIT[1]);
    assert s6 == s5.(clients := CONNECTED.clients, attempts := CONNECTED.attempts,
                     pending := {}, connected := {0}, stack := [Flushing(0)]);
    assert Step(s6, ADMIT[2]) == CONNECTED;
  }

  // Connecting again from inside the client's own disconnect.

  const NEST := [Disconnect(0), Connect(0), Return(true), Microtask, Authenticate(1)]
  const SEND_LATE := [Complete(1, false, true), Emit(0), Return(true)]
  const TEAR := [Microtask, Return(true), Return(true), Return(true)]
  const ADMIT_AND_DELIVER := [Microtask, Return(true), Return(true), Deliver(0)]

  /** The second socket is attached while the teardown of the first is still queued. */
  const NESTED := State(
    [Client(0, 0, false, None, Some(0), Some(1))],
    [Attempt(0, Cancelled, Some(0), true, true, false, false, true), Awaiting(Some(1), true, false, true)],
    [LIVE_SERVER.(torn := true), FRESH_SERVER],
    {0}, {}, {}, CONNECTED.rooms, [TeardownTask(0)], [], [], CONNECTED.log)

  const SENT := NESTED.(
    attempts := [NESTED.attempts[0], Awaiting(Some(1), true, true, true)],
    packets := [Packet(0, false, Some(1))],
    tasks := [TeardownTask(0), DoneTask(1, false)])

  const TORN := SENT.(
    servers := [Server(0, false, false, true, false), FRESH_SERVER],
    rooms := Rooms.State(map[], map[], map[0 := {}], {0}, {}, {}),
    tasks := [DoneTask(1, false)],
    log := CONNECTED.log + [ServerDisconnecting(0, {0}), ServerDisconnect(0, {})])

  lemma NestedAttaches(packets: seq<Packet>)
    ensures Run(CONNECTED.(packets := packets), NEST) == NESTED.(packets := packets)
  {
    var s1 := Step(CONNECTED.(packets := packets), NEST[0]);
    assert s1 == CONNECTED.(clients := [Client(0, 0, false, None, Some(0), None)], attempts := [NESTED.attempts[0]],
                            connected := {}, stack := [Tail(0)], packets := packets);
    var s2 := Step(s1, NEST[1]);
    assert s2 == s1.(clients := NESTED.clients, attempts := [NESTED.attempts[0], Awaiting(None, false, false, true)],
                     pending := {0}, tasks := [PairTask(1)]);
    var s3 := Step(s2, NEST[2]);
    assert s3 == s2.(stack := [], servers := [LIVE_SERVER.(torn := true)], tasks := [PairTask(1), TeardownTask(0)]);
    var s4 := Step(s3, NEST[3]);
    assert s4 == s3.(tasks := [TeardownTask(0)], attempts := [NESTED.attempts[0], Awaiting(None, true, false, true)]);
    assert Step(s4, NEST[4]) == NESTED.(packets := packets);
  }

  lemma NestedSends()
    ensures Run(NESTED, SEND_LATE) == SENT
  {
    var s1 := Step(NESTED, SEND_LATE[0]);
    assert s1 == SENT.(packets := []);
    var s2 := Step(s1, SEND_LATE[1]);
    assert s2 == s1.(stack := [Sending(0, false, false)]);
    assert Step(s2, SEND_LATE[2]) == SENT;
  }

  lemma NestedTears()
    ensures Run(SENT, TEAR) == TORN
  {
    var s1 := Step(SENT, TEAR[0]);
    assert s1 == SENT.(tasks := [DoneTask(1, false)], servers := [Server(0, true, false, true, false), FRESH_SERVER],
                       log := CONNECTED.log + [ServerDisconnecting(0, {0})], stack := [Clean(0, false)]);
    var s2 := Step(s1, TEAR[1]);
    assert s2 == s1.(servers := TORN.servers, stack := [CleanEnd(0, false)],
                     rooms := Rooms.State(map[], map[], map[0 := {0}], {0}, {0}, {0}));
    var s3 := Step(s2, TEAR[2]);
    assert s3 == TORN.(stack := [Ended(0, false)]);
    assert Step(s3, TEAR[3]) == TORN;
  }

  /** The rooms of the second socket, after the first has been cleaned up. */
  const SECOND_ROOMS := Rooms.State(map[1 := {1}], map[1 := {1}], map[0 := {}, 1 := {1}], {0}, {}, {1})

  lemma SecondRooms()
    ensures Rooms.Join(Rooms.Register(TORN.rooms, 1), 1, 1) == SECOND_ROOMS
  {
    OwnRoom(TORN.rooms, 1);
    var rooms := Rooms.Join(Rooms.Register(TORN.rooms, 1), 1, 1);
    assert rooms.rooms == map[1 := {1}] && rooms.sids == map[1 := {1}] && rooms.views == map[0 := {}, 1 := {1}];
    assert rooms.roster == {1};
  }

  const NEST_ADMITTED := TORN.(
    tasks := [], rooms := SECOND_ROOMS, servers := [TORN.servers[0], LIVE_SERVER],
    log := TORN.log + [ServerConnection(1)], stack := [AfterConnection(1)])

  const NEST_CONNECTED := NEST_ADMITTED.(
    clients := [Client(0, 0, true, Some(1), Some(1), Some(1))],
    attempts := [TORN.attempts[0], Attempt(0, Established, Some(1), true, true, false, true, true)],
    pending := {}, connected := {0}, stack := [], log := NEST_ADMITTED.log + [ClientConnect(1)])

  lemma NestedAdmits()
    ensures Step(TORN, Microtask) == NEST_ADMITTED
  {
    SecondRooms();
  }

  lemma NestedEstablishes()
    ensures Step(Step(NEST_ADMITTED, Return(true)), Return(true)) == NEST_CONNECTED
  {
    var s2 := Step(NEST_ADMITTED, Return(true));
    assert s2 == NEST_CONNECTED.(stack := [Flushing(1)], log := NEST_ADMITTED.log);
  }

  lemma NestedDispatches()
    ensures Dispatched(0, Some(1), Some(1), false, false, true, true) in Step(NEST_CONNECTED, Deliver(0)).log
  {
    var s := NEST_CONNECTED;
    assert Superseded(s.attempts, 0, 0) by { assert s.attempts[1].server == Some(1); }
    assert Guard(s, s.packets[0]);
    assert Step(s, Deliver(0)).log == s.log + [Dispatched(0, Some(1), Some(1), false, false, true, true)];
  }

  lemma NestedDelivers()
    ensures Dispatched(0, Some(1), Some(1), false, false, true, true) in Run(TORN, ADMIT_AND_DELIVER).log
  {
    NestedAdmits();
    NestedEstablishes();
    NestedDispatches();
    hide Step;
    assert Run(TORN, ADMIT_AND_DELIVER) ==
           Step(Step(Step(Step(TORN, Microtask), Return(true)), Return(true)), Deliver(0)) by { RunFour(TORN, Microtask, Return(true), Return(true), Deliver(0)); }
  }

  lemma RunFour(s: State, a: Event, b: Event, c: Event, d: Event)
    ensures Run(s, [a, b, c, d]) == Step(Step(Step(Step(s, a), b), c), d)
  {
    hide Step, Run;
    RunFirst(s, a, [b, c, d]);
    RunFirst(Step(s, a), b, [c, d]);
    RunFirst(Step(Step(s, a), b), c, [d]);
    RunFirst(Step(Step(Step(s, a), b), c), d, []);
    EmptyRun(Step(Step(Step(Step(s, a), b), c), d));
    assert [a] + [b, c, d] == [a, b, c, d] && [b] + [c, d] == [b, c, d] && [c] + [d] == [c, d] && [d] + [] == [d];
  }

  lemma RunFirst(s: State, a: Event, rest: seq<Event>)
    ensures Run(s, [a] + rest) == Run(Step(s, a), rest)
  {
    hide Step;
    assert ([a] + rest)[1..] == rest;
  }

  // Which conditions a run meets.

  lemma {:induction false} PatientAppend(s: State, first: seq<Event>, second: seq<Event>)
    ensures PatientRun(s, first + second) <==> PatientRun(s, first) && PatientRun(Run(s, first), second)
    decreases |first|
  {
    hide Step, Patient;
    if first == [] {
      assert first + second == second;
    } else {
      assert (first + second)[0] == first[0] && (first + second)[1..] == first[1..] + second;
      PatientAppend(Step(s, first[0]), first[1..], second);
    }
  }

  lemma {:induction false} MannerlyAppend(s: State, first: seq<Event>, second: seq<Event>)
    ensures MannerlyRun(s, first + second) <==> MannerlyRun(s, first) && MannerlyRun(Run(s, first), second)
    decreases |first|
  {
    hide Step, Mannerly;
    if first == [] {
      assert first + second == second;
    } else {
      assert (first + second)[0] == first[0] && (first + second)[1..] == first[1..] + second;
      MannerlyAppend(Step(s, first[0]), first[1..], second);
    }
  }

  lemma {:induction false} LateConnectsArePatient(s: State, events: seq<Event>)
    requires forall i :: 0 <= i < |events| && events[i].Connect? ==> i == 0 && !InDisconnect(s.stack, events[i].client)
    ensures PatientRun(s, events)
    decreases |events|
  {
    hide Step;
    if events != [] {
      assert forall i :: 0 <= i < |events[1..]| ==> events[1..][i] == events[i + 1];
      LateConnectsArePatient(Step(s, events[0]), events[1..]);
    }
  }

  lemma {:induction false} HandsOffIsMannerly(s: State, events: seq<Event>)
    requires forall e :: e in events ==> !e.DisconnectServer? && !e.DisconnectGroup?
    ensures MannerlyRun(s, events)
    decreases |events|
  {
    hide Step;
    if events != [] { HandsOffIsMannerly(Step(s, events[0]), events[1..]); }
  }

  const FIRST := ASK + ADMIT
  const LATE := SEND_LATE + TEAR + ADMIT_AND_DELIVER
  const NESTED_RUN := FIRST + (NEST + LATE)

  lemma FirstRuns()
    ensures Run(IDLE, FIRST) == CONNECTED
  {
    hide Run;
    FirstAsks();
    FirstConnects();
    RunAppend(IDLE, ASK, ADMIT);
  }

  lemma LateRuns()
    ensures Dispatched(0, Some(1), Some(1), false, false, true, true) in Run(NESTED, LATE).log
  {
    hide Run;
    NestedSends();
    NestedTears();
    NestedDelivers();
    RunAppend(NESTED, SEND_LATE, TEAR);
    RunAppend(NESTED, SEND_LATE + TEAR, ADMIT_AND_DELIVER);
  }

  lemma NestedIsMannerly()
    ensures MannerlyRun(IDLE, NESTED_RUN)
  {
    hide Run, MannerlyRun, Step;
    HandsOffIsMannerly(IDLE, NESTED_RUN);
  }

  lemma NestIsImpatient()
    ensures !PatientRun(CONNECTED, NEST)
  {
    var s1 := Step(CONNECTED, NEST[0]);
    assert s1.stack == [Tail(0)];
    assert !Patient(s1, NEST[1]);
    assert !PatientRun(s1, NEST[1..]);
  }

  /**
    Connecting from inside the client's own disconnect: in this mannerly run a packet sent
    through the first server socket is dispatched while the client is connected through the
    second.
   */
  lemma NestedConnectDeliversStale()
    ensures Initial(IDLE) && MannerlyRun(IDLE, NESTED_RUN) && !PatientRun(IDLE, NESTED_RUN)
    ensures Dispatched(0, Some(1), Some(1), false, false, true, true) in Run(IDLE, NESTED_RUN).log
  {
    hide Run, PatientRun, MannerlyRun, Step;
    NestedIsMannerly();
    FirstRuns();
    NestedAttaches([]);
    assert CONNECTED.(packets := []) == CONNECTED && NESTED.(packets := []) == NESTED;
    LateRuns();
    RunAppend(IDLE, FIRST, NEST + LATE);
    RunAppend(CONNECTED, NEST, LATE);
    PatientAppend(IDLE, FIRST, NEST + LATE);
    PatientAppend(CONNECTED, NEST, LATE);
    NestIsImpatient();
  }

  lemma EmptyRun(s: State)
    ensures Run(s, []) == s
  {}

  // Disconnecting through the handle of a socket that was never admitted.

  const GIVE_UP := [Connect(0), Microtask, Authenticate(0), Disconnect(0)]
  const RETRY := [Connect(0), Microtask, Authenticate(1), Complete(1, false, true)]
  const STALE := [DisconnectServer(0), Return(true), Return(true), Return(true), Microtask]

  const GIVEN_UP := State(
    [Client(0, 0, false, None, None, None)], [Attempt(0, Cancelled, Some(0), true, false, false, false, false)],
    [Server(0, false, false, false, false)], {}, {}, {}, Rooms.State(map[], map[], map[0 := {}], {0}, {}, {}), [], [], [], [])

  const RETRIED := State(
    [Client(0, 0, true, Some(1), Some(1), Some(1))],
    [GIVEN_UP.attempts[0], Attempt(0, Established, Some(1), true, true, false, false, true)],
    [GIVEN_UP.servers[0], LIVE_SERVER], {}, {0}, {},
    Rooms.State(map[1 := {1}], map[1 := {1}], map[0 := {}, 1 := {1}], {0}, {}, {1}),
    [], [], [], [ServerConnection(1), ClientConnect(1)])

  lemma GivesUp()
    ensures Run(IDLE, GIVE_UP) == GIVEN_UP
  {
    var s1 := Step(IDLE, GIVE_UP[0]);
    assert s1 == IDLE.(clients := [Client(0, 0, false, None, None, Some(0))],
                       attempts := [Awaiting(None, false, false, false)], pending := {0}, tasks := [PairTask(0)]);
    var s2 := Step(s1, GIVE_UP[1]);
    assert s2 == s1.(tasks := [], attempts := [Awaiting(None, true, false, false)]);
    var s3 := Step(s2, GIVE_UP[2]);
    assert s3 == s2.(attempts := [Awaiting(Some(0), true, false, false)], servers := [FRESH_SERVER]);
    assert Step(s3, GIVE_UP[3]) == GIVEN_UP;
  }

  const RETRY_ASKED := GIVEN_UP.(
    clients := [Client(0, 0, false, None, None, Some(1))],
    attempts := [GIVEN_UP.attempts[0], Awaiting(Some(1), true, true, false)],
    servers := [GIVEN_UP.servers[0], FRESH_SERVER], pending := {0}, tasks := [DoneTask(1, false)])

  lemma Retries()
    ensures Run(GIVEN_UP, RETRY) == RETRY_ASKED
  {
    var s1 := Step(GIVEN_UP, RETRY[0]);
    assert s1 == GIVEN_UP.(clients := [Client(0, 0, false, None, None, Some(1))],
                           attempts := [GIVEN_UP.attempts[0], Awaiting(None, false, false, false)],
                           pending := {0}, tasks := [PairTask(1)]);
    var s2 := Step(s1, RETRY[1]);
    assert s2 == s1.(tasks := [], attempts := [GIVEN_UP.attempts[0], Awaiting(None, true, false, false)]);
    var s3 := Step(s2, RETRY[2]);
    assert s3 == s2.(attempts := [GIVEN_UP.attempts[0], Awaiting(Some(1), true, false, false)],
                     servers := [GIVEN_UP.servers[0], FRESH_SERVER]);
    assert Step(s3, RETRY[3]) == RETRY_ASKED;
  }

  const RETRY_ADMITTED := RETRY_ASKED.(
    tasks := [], rooms := SECOND_ROOMS, servers := RETRIED.servers,
    log := [ServerConnection(1)], stack := [AfterConnection(1)])

  lemma RetryAdmits()
    ensures Step(RETRY_ASKED, Microtask) == RETRY_ADMITTED
  {
    SecondRooms();
  }

  lemma RetryEstablishes()
    ensures Step(Step(RETRY_ADMITTED, Return(true)), Return(true)) == RETRIED
  {
    var s6 := Step(RETRY_ADMITTED, Return(true));
    assert s6 == RETRIED.(stack := [Flushing(1)], log := RETRY_ADMITTED.log);
  }

  lemma RetryConnects()
    ensures Run(RETRY_ASKED, ADMIT) == RETRIED
  {
    RetryAdmits();
    RetryEstablishes();
    hide Step;
    assert ADMIT[1..] == [Return(true), Return(true)] && [Return(true), Return(true)][1..] == [Return(true)];
  }

  const STALE_LEAVING := RETRIED.(
    servers := [Server(0, false, false, true, false), LIVE_SERVER],
    log := RETRIED.log + [ServerDisconnecting(0, {})], stack := [Clean(0, true)])

  const STALE_MARKED := STALE_LEAVING.(
    stack := [], tasks := [MarkTask(0)], log := STALE_LEAVING.log + [ServerDisconnect(0, {})])

  lemma StaleLeaves()
    ensures Step(RETRIED, DisconnectServer(0)) == STALE_LEAVING
  {}

  lemma StaleCleans()
    ensures Step(Step(Step(STALE_LEAVING, Return(true)), Return(true)), Return(true)) == STALE_MARKED
  {
    var s2 := Step(STALE_LEAVING, Return(true));
    assert s2 == STALE_LEAVING.(stack := [CleanEnd(0, true)]);
    var s3 := Step(s2, Return(true));
    assert s3 == STALE_LEAVING.(stack := [Ended(0, true)], log := STALE_MARKED.log);
  }

  /** The client is disconnected; nothing else has changed. */
  const STALE_ENDED := STALE_MARKED.(
    tasks := [], clients := [Client(0, 0, false, None, Some(1), None)],
    attempts := [GIVEN_UP.attempts[0], Attempt(0, Cancelled, Some(1), true, true, false, false, true)], connected := {})

  lemma StaleMarks()
    ensures Step(STALE_MARKED, Microtask) == STALE_ENDED
  {}

  lemma StaleEnds()
    ensures Run(RETRIED, STALE) == STALE_ENDED
  {
    StaleLeaves();
    StaleCleans();
    StaleMarks();
    hide Step;
    RunFour(RETRIED, DisconnectServer(0), Return(true), Return(true), Return(true));
    assert STALE == [DisconnectServer(0), Return(true), Return(true), Return(true)] + [Microtask];
    RunAppend(RETRIED, [DisconnectServer(0), Return(true), Return(true), Return(true)], [Microtask]);
  }

  /**
    The abandoned socket 0 is disconnected through a handle that was kept: the client loses
    its later connection, whose server socket 1 stays active, untorn and in the roster.
   */
  lemma StaleHandleEndsLaterConnection()
    ensures Run(Run(Run(IDLE, GIVE_UP), RETRY), ADMIT) == RETRIED && RETRIED.clients[0].connected
    ensures !Mannerly(RETRIED, DisconnectServer(0))
    ensures Run(RETRIED, STALE) == STALE_ENDED && !STALE_ENDED.clients[0].connected
    ensures STALE_ENDED.servers[1] == LIVE_SERVER && 1 in STALE_ENDED.rooms.roster
  {
    GivesUp();
    Retries();
    RetryConnects();
    StaleEnds();
    hide Run;
  }

  const AGAIN := [Connect(0), Microtask, Authenticate(2)]
  const SEND_OLD := [Complete(2, false, true), Emit(1), Return(true)]

  /** The third socket is attached while the second is still in the roster. */
  const SHARED := STALE_ENDED.(
    clients := [Client(0, 0, false, None, Some(1), Some(2))],
    attempts := STALE_ENDED.attempts + [Awaiting(Some(2), true, false, false)],
    servers := STALE_ENDED.servers + [FRESH_SERVER], pending := {0})

  const OLD_SENT := SHARED.(
    attempts := STALE_ENDED.attempts + [Awaiting(Some(2), true, true, false)],
    packets := [Packet(1, false, Some(2))], tasks := [DoneTask(2, false)])

  lemma ThirdAttaches()
    ensures Run(STALE_ENDED, AGAIN) == SHARED
  {
    var s1 := Step(STALE_ENDED, AGAIN[0]);
    assert s1 == STALE_ENDED.(clients := SHARED.clients, pending := {0}, tasks := [PairTask(2)],
                              attempts := STALE_ENDED.attempts + [Awaiting(None, false, false, false)]);
    var s2 := Step(s1, AGAIN[1]);
    assert s2 == s1.(tasks := [], attempts := STALE_ENDED.attempts + [Awaiting(None, true, false, false)]);
    assert Step(s2, AGAIN[2]) == SHARED;
  }

  lemma OldSends()
    ensures Run(SHARED, SEND_OLD) == OLD_SENT
  {
    var s1 := Step(SHARED, SEND_OLD[0]);
    assert s1 == OLD_SENT.(packets := []);
    var s2 := Step(s1, SEND_OLD[1]);
    assert s2 == s1.(stack := [Sending(1, false, false)]);
    assert Step(s2, SEND_OLD[2]) == OLD_SENT;
  }

  const THIRD_ROOMS := Rooms.State(map[1 := {1}, 2 := {2}], map[1 := {1}, 2 := {2}],
                                   map[0 := {}, 1 := {1}, 2 := {2}], {0}, {}, {1, 2})

  const THIRD_ADMITTED := OLD_SENT.(
    tasks := [], rooms := THIRD_ROOMS, servers := STALE_ENDED.servers + [LIVE_SERVER],
    log := OLD_SENT.log + [ServerConnection(2)], stack := [AfterConnection(2)])

  const THIRD_CONNECTED := THIRD_ADMITTED.(
    clients := [Client(0, 0, true, Some(2), Some(2), Some(2))],
    attempts := STALE_ENDED.attempts + [Attempt(0, Established, Some(2), true, true, false, false, true)],
    pending := {}, connected := {0}, stack := [], log := THIRD_ADMITTED.log + [ClientConnect(2)])

  lemma ThirdAdmits()
    ensures Step(OLD_SENT, Microtask) == THIRD_ADMITTED
  {
    OwnRoom(OLD_SENT.rooms, 2);
    var rooms := Rooms.Join(Rooms.Register(OLD_SENT.rooms, 2), 2, 2);
    assert rooms.rooms == THIRD_ROOMS.rooms && rooms.sids == THIRD_ROOMS.sids && rooms.views == THIRD_ROOMS.views;
    assert rooms.roster == {1, 2};
  }

  lemma ThirdEstablishes()
    ensures Step(Step(THIRD_ADMITTED, Return(true)), Return(true)) == THIRD_CONNECTED
  {
    var s2 := Step(THIRD_ADMITTED, Return(true));
    assert s2 == THIRD_CONNECTED.(stack := [Flushing(2)], log := THIRD_ADMITTED.log);
  }

  lemma OldDispatches()
    ensures Dispatched(1, Some(2), Some(2), false, false, true, true) in Step(THIRD_CONNECTED, Deliver(0)).log
  {
    var s := THIRD_CONNECTED;
    assert Superseded(s.attempts, 0, 1) by { assert s.attempts[2].server == Some(2); }
    assert Guard(s, s.packets[0]);
    assert Step(s, Deliver(0)).log == s.log + [Dispatched(1, Some(2), Some(2), false, false, true, true)];
  }

  lemma OldDelivers()
    ensures Dispatched(1, Some(2), Some(2), false, false, true, true) in Run(OLD_SENT, ADMIT_AND_DELIVER).log
  {
    ThirdAdmits();
    ThirdEstablishes();
    OldDispatches();
    hide Step;
    RunFour(OLD_SENT, Microtask, Return(true), Return(true), Deliver(0));
  }

  const TWICE := GIVE_UP + (RETRY + ADMIT)
  const STALE_RUN := TWICE + (STALE + (AGAIN + (SEND_OLD + ADMIT_AND_DELIVER)))

  lemma TwiceRuns()
    ensures Run(IDLE, TWICE) == RETRIED && PatientRun(IDLE, TWICE)
  {
    hide Run, PatientRun, Step;
    GivesUp();
    Retries();
    RetryConnects();
    RunAppend(IDLE, GIVE_UP, RETRY + ADMIT);
    RunAppend(GIVEN_UP, RETRY, ADMIT);
    TwiceIsPatient();
    PatientAppend(IDLE, GIVE_UP, RETRY + ADMIT);
  }

  lemma TwiceIsPatient()
    ensures PatientRun(IDLE, GIVE_UP) && PatientRun(GIVEN_UP, RETRY + ADMIT)
  {
    hide Run, PatientRun, Step;
    LateConnectsArePatient(IDLE, GIVE_UP);
    LateConnectsArePatient(GIVEN_UP, RETRY + ADMIT);
  }

  lemma StaleIsUnmannerly()
    ensures PatientRun(RETRIED, STALE) && !MannerlyRun(RETRIED, STALE)
  {
    LateConnectsArePatient(RETRIED, STALE);
    assert !Mannerly(RETRIED, STALE[0]);
  }

  lemma AgainIsPatient()
    ensures PatientRun(STALE_ENDED, AGAIN + (SEND_OLD + ADMIT_AND_DELIVER))
  {
    LateConnectsArePatient(STALE_ENDED, AGAIN + (SEND_OLD + ADMIT_AND_DELIVER));
  }

  /**
    In this patient run the abandoned socket 0 is disconnected through a handle that was kept,
    which ends the connection through socket 1 but leaves that socket alone; a packet sent
    through it is dispatched while the client is connected through socket 2.
   */
  lemma StaleHandleDeliversStale()
    ensures Initial(IDLE) && PatientRun(IDLE, STALE_RUN) && !MannerlyRun(IDLE, STALE_RUN)
    ensures Dispatched(1, Some(2), Some(2), false, false, true, true) in Run(IDLE, STALE_RUN).log
  {
    TwiceRuns();
    StaleIsUnmannerly();
    StaleEnds();
    AgainIsPatient();
    ThirdAttaches();
    OldSends();
    OldDelivers();
    hide Run, PatientRun, MannerlyRun, Step;
    var late := SEND_OLD + ADMIT_AND_DELIVER;
    RunAppend(IDLE, TWICE, STALE + (AGAIN + late));
    RunAppend(RETRIED, STALE, AGAIN + late);
    RunAppend(STALE_ENDED, AGAIN, late);
    RunAppend(SHARED, SEND_OLD, ADMIT_AND_DELIVER);
    PatientAppend(IDLE, TWICE, STALE + (AGAIN + late));
    PatientAppend(RETRIED, STALE, AGAIN + late);
    MannerlyAppend(IDLE, TWICE, STALE + (AGAIN + late));
    MannerlyAppend(RETRIED, STALE, AGAIN + late);
  }

  /**
    The same run up to the third attachment: the ordinary attempt 2 has its server socket
    while socket 1 of the same client is still in the indexes and in the roster.
   */
  lemma StaleHandleLeavesTwoAttached()
    ensures var s := Run(IDLE, TWICE + (STALE + AGAIN));
            && s == SHARED && IsPending(s, 2) && s.attempts[2].asked && !s.attempts[2].nested
            && s.servers[1].client == s.attempts[2].client && s.attempts[2].server == Some(2)
            && Lingering(s.rooms, 1) && 1 in s.rooms.roster
  {
    TwiceRuns();
    StaleEnds();
    ThirdAttaches();
    hide Run, PatientRun;
    RunAppend(IDLE, TWICE, STALE + AGAIN);
    RunAppend(RETRIED, STALE, AGAIN);
  }

  // A packet of the first connection, drained when the second socket is attached.

  const SEND_EARLY := [Emit(0), Return(true)]
  const DRAIN := [Microtask, Return(true), Deliver(0)]
  const EARLY := [Packet(0, false, Some(0))]

  lemma EarlySends()
    ensures Run(CONNECTED, SEND_EARLY) == CONNECTED.(packets := EARLY)
  {
    var s1 := Step(CONNECTED, SEND_EARLY[0]);
    assert s1 == CONNECTED.(stack := [Sending(0, false, true)]);
    assert Step(s1, SEND_EARLY[1]) == CONNECTED.(packets := EARLY);
  }

  lemma EarlyDrains()
    ensures Run(NESTED.(packets := EARLY), DRAIN).log ==
            CONNECTED.log + [ServerDisconnecting(0, {0}), Dispatched(0, Some(1), Some(0), false, true, true, true)]
  {
    var s := NESTED.(packets := EARLY);
    var s1 := Step(s, DRAIN[0]);
    assert s1 == s.(tasks := [], servers := [Server(0, true, false, true, false), FRESH_SERVER],
                    log := CONNECTED.log + [ServerDisconnecting(0, {0})], stack := [Clean(0, false)]);
    var s2 := Step(s1, DRAIN[1]);
    assert s2 == s1.(servers := TORN.servers, stack := [CleanEnd(0, false)],
                     rooms := Rooms.State(map[], map[], map[0 := {0}], {0}, {0}, {0}));
    assert s2.attempts[1].client == 0 && s2.attempts[1].server == Some(1);
    assert Step(s2, DRAIN[2]).log == s2.log + [Arrival(s2, EARLY[0])];
  }

  /** It was sent through the client's current socket, but the adapter drains it too late. */
  lemma DrainDeliversStale()
    ensures Initial(IDLE) && Run(IDLE, ASK + ADMIT) == CONNECTED
    ensures Dispatched(0, Some(1), Some(0), false, true, true, true) in Run(CONNECTED, SEND_EARLY + (NEST + DRAIN)).log
  {
    FirstAsks();
    FirstConnects();
    EarlySends();
    NestedAttaches(EARLY);
    EarlyDrains();
    hide Run, Step;
    RunAppend(IDLE, ASK, ADMIT);
    RunAppend(CONNECTED, SEND_EARLY, NEST + DRAIN);
    RunAppend(CONNECTED.(packets := EARLY), NEST, DRAIN);
  }

  // Disconnecting a socket that middleware still holds.

  const HOLD := [Connect(0), Microtask, Authenticate(0)]
  const MEDDLE := [DisconnectServer(0), Return(true), Return(true), Return(true)]
  const LET_IN := [Complete(0, false, true), Microtask, Microtask]

  const HELD := State(
    [Client(0, 0, false, None, None, Some(0))], [Awaiting(Some(0), true, false, false)], [FRESH_SERVER],
    {0}, {}, {}, Rooms.EMPTY, [], [], [], [])

  const MEDDLED := HELD.(
    servers := [Server(0, false, false, true, false)], tasks := [MarkTask(0)],
    rooms := Rooms.State(map[], map[], map[0 := {}], {0}, {}, {}),
    log := [ServerDisconnecting(0, {}), ServerDisconnect(0, {})])

  const LET_IN_LATE := MEDDLED.(
    attempts := [Awaiting(Some(0), true, true, false)], servers := [Server(0, true, false, true, false)], tasks := [],
    rooms := MEDDLED.rooms.(roster := {0}), log := MEDDLED.log + [ServerConnection(0)], stack := [AfterConnection(0)])

  lemma Holds()
    ensures Run(IDLE, HOLD) == HELD
  {
    var s1 := Step(IDLE, HOLD[0]);
    assert s1 == IDLE.(clients := HELD.clients, attempts := [Awaiting(None, false, false, false)],
                       pending := {0}, tasks := [PairTask(0)]);
    var s2 := Step(s1, HOLD[1]);
    assert s2 == s1.(tasks := [], attempts := [Awaiting(None, true, false, false)]);
    assert Step(s2, HOLD[2]) == HELD;
  }

  lemma MeddlesHere()
    ensures Run(HELD, MEDDLE) == MEDDLED
  {
    var s1 := Step(HELD, MEDDLE[0]);
    assert s1 == HELD.(servers := MEDDLED.servers, log := [ServerDisconnecting(0, {})], stack := [Clean(0, true)]);
    var s2 := Step(s1, MEDDLE[1]);
    assert s2 == s1.(rooms := Rooms.State(map[], map[], map[], {0}, {0}, {}), stack := [CleanEnd(0, true)]);
    var s3 := Step(s2, MEDDLE[2]);
    assert s3 == MEDDLED.(tasks := [], stack := [Ended(0, true)]);
    assert Step(s3, MEDDLE[3]) == MEDDLED;
  }

  lemma LetsIn()
    ensures Run(MEDDLED, LET_IN) == LET_IN_LATE
  {
    var s1 := Step(MEDDLED, LET_IN[0]);
    assert s1 == MEDDLED.(attempts := LET_IN_LATE.attempts, tasks := [MarkTask(0), DoneTask(0, false)]);
    var s2 := Step(s1, LET_IN[1]);
    assert s2 == s1.(tasks := [DoneTask(0, false)]);
    assert Rooms.Join(Rooms.Register(s2.rooms, 0), 0, 0) == LET_IN_LATE.rooms;
    assert Step(s2, LET_IN[2]) == LET_IN_LATE;
  }

  /**
    A socket is disconnected by hand while middleware holds it: its attempt is admitted all
    the same, and the roster keeps a socket whose `disconnect` is already out.
   */
  lemma HeldSocketStaysOnTheRoster()
    ensures Initial(IDLE) && Run(IDLE, HOLD) == HELD && Meddles(HELD, MEDDLE[0])
    ensures var s := Run(HELD, MEDDLE + LET_IN);
            Left(s.log, 0) && 0 in s.rooms.roster && !Lingering(s.rooms, 0)
  {
    assert Held(HELD, 0);
    hide Run, Step;
    Holds();
    MeddlesHere();
    LetsIn();
    RunAppend(HELD, MEDDLE, LET_IN);
    assert ServerDisconnect(0, {}) in LET_IN_LATE.log;
  }

  // Middleware that answers with an error whose data cannot be encoded.

  const ANSWER := [Complete(0, true, false), Microtask]

  const UNTOLD := HELD.(
    clients := [Client(0, 0, false, None, None, None)],
    attempts := [Attempt(0, Rejected(false), Some(0), true, true, true, false, false)],
    servers := [Server(0, false, false, false, false)], pending := {}, rooms := Rooms.State(map[], map[], map[0 := {}], {0}, {}, {}))

  lemma Answers()
    ensures Run(HELD, ANSWER) == UNTOLD
  {
    var s1 := Step(HELD, ANSWER[0]);
    assert s1 == HELD.(attempts := [UNTOLD.attempts[0].(phase := Pending)], tasks := [DoneTask(0, true)]);
    assert Rooms.Cleanup(Rooms.EMPTY, 0) == UNTOLD.rooms;
    assert Step(s1, ANSWER[1]) == UNTOLD;
  }

  /** The attempt is over and rejected, but its client never hears of it. */
  lemma UnencodableErrorIsNotReported()
    ensures Initial(IDLE) && Run(IDLE, HOLD) == HELD
    ensures Run(HELD, ANSWER) == UNTOLD
    ensures UNTOLD.attempts[0].phase.Rejected? && UNTOLD.tasks == [] && UNTOLD.stack == [] && UNTOLD.log == []
  {
    hide Run, Step;
    Holds();
    Answers();
  }
}
