/**
  The server sockets given to one client, one after the other. Sockets are numbered as they
  are created, and only a client's current attempt is ever given one, so the current attempt
  holds the latest; whatever is active, listed or sent through was given to its client.
 */
module LifecycleSuccession {
  import opened Common
  import Rooms
  import opened Lifecycle
  import opened LifecycleStanding
  import opened LifecycleOutcomes
  import opened LifecycleTeardown
  import opened LifecycleMembership
  import opened LifecycleRuns
  import opened LifecycleHandover
  import opened LifecycleHandoverRuns
  import opened LifecycleDelivery
  import opened LifecycleRoster

  /** Some attempt of the client was given the socket. */
  ghost predicate Given(attempts: seq<Attempt>, c: nat, v: nat) {
    exists a :: 0 <= a < |attempts| && attempts[a].client == c && attempts[a].server == Some(v)
  }

  predicate Highest(clients: seq<Client>, attempts: seq<Attempt>, c: nat, b: nat)
    requires c < |clients| && b < |attempts|
  {
    var a := clients[c].attempt;
    attempts[b].client == c && attempts[b].server.Some? && a.Some? && a.value < |attempts| && attempts[a.value].server.Some? ==>
      attempts[b].server.value <= attempts[a.value].server.value
  }

  ghost predicate CurrentHighest(clients: seq<Client>, attempts: seq<Attempt>) {
    forall c, b :: 0 <= c < |clients| && 0 <= b < |attempts| ==> Highest(clients, attempts, c, b)
  }

  ghost predicate SocketGiven(attempts: seq<Attempt>, servers: seq<Server>, v: nat) {
    v < |servers| && Given(attempts, servers[v].client, v)
  }

  ghost predicate PacketGiven(attempts: seq<Attempt>, servers: seq<Server>, p: Packet) {
    && SocketGiven(attempts, servers, p.via)
    && (p.captured.Some? ==> p.captured.value < |servers| && servers[p.captured.value].client == servers[p.via].client)
  }

  ghost predicate FrameGiven(attempts: seq<Attempt>, servers: seq<Server>, f: Frame) {
    && (f.Sending? && f.broadcast ==> SocketGiven(attempts, servers, f.server))
    && (f.Broadcasting? ==> forall i :: 0 <= i < |f.order| ==> SocketGiven(attempts, servers, f.order[i]))
  }

  /** What the log says of a dispatch outside a drain, and of one by the packet's own guard. */
  ghost predicate Exact(o: Observation) {
    o.Dispatched? ==>
      && (!o.owned && !o.drained ==> (o.superseded <==> o.captured != Some(o.via)))
      && (o.owned ==> !o.overtaken)
  }

  ghost predicate Succession(s: State) {
    && CurrentHighest(s.clients, s.attempts)
    && (forall v :: 0 <= v < |s.servers| ==>
          (s.servers[v].active || Lingering(s.rooms, v) ==> SocketGiven(s.attempts, s.servers, v)))
    && (forall p :: p in s.packets ==> PacketGiven(s.attempts, s.servers, p))
    && (forall f :: f in s.stack ==> FrameGiven(s.attempts, s.servers, f))
    && (forall o :: o in s.log ==> Exact(o))
  }

  // Steps that give no socket and send nothing.

  ghost predicate NoneGiven(attempts: seq<Attempt>, next: seq<Attempt>) {
    && |attempts| <= |next|
    && (forall a :: 0 <= a < |attempts| ==> next[a].client == attempts[a].client && next[a].server == attempts[a].server)
    && (forall a :: |attempts| <= a < |next| ==> next[a].server == None)
  }

  /** No attempt is newly asked for its auth payload. */
  ghost predicate NoneAsked(attempts: seq<Attempt>, next: seq<Attempt>) {
    forall a :: 0 <= a < |next| && next[a].asked ==> a < |attempts| && attempts[a].asked
  }

  predicate AttemptFollows(before: Option<nat>, after: Option<nat>, attempts: nat) {
    after == before || after == None || after.value >= attempts
  }

  /** No socket starts to linger. */
  ghost predicate LingersLess(r: Rooms.State, q: Rooms.State) {
    forall v: nat :: Lingering(q, v) ==> Lingering(r, v)
  }

  ghost predicate Tame(s: State, q: State) {
    && NoneGiven(s.attempts, q.attempts) && NoneAsked(s.attempts, q.attempts)
    && |q.clients| == |s.clients|
    && (forall c :: 0 <= c < |s.clients| ==> AttemptFollows(s.clients[c].attempt, q.clients[c].attempt, |s.attempts|))
    && ModestServers(s.servers, q.servers)
    && (forall p :: p in q.packets ==> p in s.packets)
    && (forall f: Frame :: f in q.stack && IsSender(f) ==> f in s.stack)
    && (forall o: Observation :: o in q.log && o.Dispatched? ==> o in s.log)
  }

  lemma NoneGivenKeeps(attempts: seq<Attempt>, next: seq<Attempt>, c: nat, v: nat)
    requires NoneGiven(attempts, next)
    ensures Given(attempts, c, v) <==> Given(next, c, v)
  {}

  lemma TameHighest(s: State, q: State)
    requires Tame(s, q) && CurrentHighest(s.clients, s.attempts)
    ensures CurrentHighest(q.clients, q.attempts)
  {
    hide ModestServers;
    forall c, b | 0 <= c < |q.clients| && 0 <= b < |q.attempts| ensures Highest(q.clients, q.attempts, c, b) {
      if b < |s.attempts| { assert Highest(s.clients, s.attempts, c, b); }
    }
  }

  lemma TameKeeps(s: State, q: State)
    requires Succession(s) && Tame(s, q) && LingersLess(s.rooms, q.rooms)
    ensures Succession(q)
  {
    TameHighest(s, q);
    hide CurrentHighest, Lingering, Exact, Given, NoneGiven, AttemptFollows;
    forall c: nat, v: nat ensures Given(s.attempts, c, v) <==> Given(q.attempts, c, v) {
      NoneGivenKeeps(s.attempts, q.attempts, c, v);
    }
  }

  lemma TameTrans(s: State, q: State, r: State)
    requires Tame(s, q) && Tame(q, r)
    ensures Tame(s, r)
  {
    forall c | 0 <= c < |s.clients| ensures AttemptFollows(s.clients[c].attempt, r.clients[c].attempt, |s.attempts|) {
      assert AttemptFollows(s.clients[c].attempt, q.clients[c].attempt, |s.attempts|);
    }
    forall f: Frame | f in r.stack && IsSender(f) ensures f in s.stack { assert f in q.stack; }
    forall o: Observation | o in r.log && o.Dispatched? ensures o in s.log { assert o in q.log; }
    forall p | p in r.packets ensures p in s.packets { assert p in q.packets; }
  }

  lemma TameSelf(s: State)
    ensures Tame(s, s)
  {}

  lemma DiscardTame(s: State, v: Option<nat>)
    ensures Tame(s, DiscardOf(s, v))
  {}

  lemma AbandonTame(s: State, a: nat, phase: Phase)
    requires IsPending(s, a)
    ensures Tame(s, Abandon(s, a, phase))
  {}

  lemma CancelTame(s: State, c: nat)
    requires c < |s.clients|
    ensures Tame(s, Cancel(s, c)) && Tame(s, MarkDisconnected(s, c))
  {
    hide Abandon;
    var attempt := s.clients[c].attempt;
    if attempt.Some? && IsPending(s, attempt.value) { AbandonTame(s, attempt.value, Cancelled); }
  }

  lemma RejectTame(s: State, a: nat, encodes: bool)
    ensures Tame(s, Reject(s, a, encodes))
  {
    hide Abandon;
    if IsPending(s, a) { AbandonTame(s, a, Rejected(encodes)); }
  }

  lemma {:induction false} CancelOthersTame(s: State, i: nat, manager: nat, v: nat)
    ensures Tame(s, CancelOthers(s, i, manager, v))
    decreases |s.clients| - i
  {
    hide Tame;
    TameSelf(s);
    if i < |s.clients| {
      var q := if i in s.pending && s.clients[i].manager == manager && !Owns(s, i, v) then Cancel(s, i) else s;
      CancelTame(s, i);
      CancelOthersTame(q, i + 1, manager, v);
      TameTrans(s, q, CancelOthers(q, i + 1, manager, v));
    }
  }

  lemma ServerDisconnectTame(s: State, v: nat)
    requires v < |s.servers|
    ensures Tame(s, ServerDisconnectCall(s, v))
  {}

  lemma {:induction false} TeardownAllTame(s: State, order: seq<nat>)
    ensures Tame(s, TeardownAll(s, order))
    decreases |order|
  {
    TameSelf(s);
    if order != [] {
      var q := if order[0] < |s.servers| then Teardown(s, order[0], true) else s;
      assert Tame(s, q);
      hide Tame, Teardown;
      TeardownAllTame(q, order[1..]);
      TameTrans(s, q, TeardownAll(q, order[1..]));
    }
  }

  lemma GroupNextTame(s: State, order: seq<nat>, next: nat, v: nat)
    requires v < |s.servers|
    ensures Tame(s, GroupNext(s, order, next, v))
  {
    hide Tame, ServerDisconnectCall, CancelOthers;
    var p := Push(s, Group(order, next + 1, v));
    var q := CancelOthers(s, 0, ManagerOf(s, v), v);
    PushTame(s, Group(order, next + 1, v));
    CancelOthersTame(s, 0, ManagerOf(s, v), v);
    var r := GroupNext(s, order, next, v);
    if next >= |order| {
      ServerDisconnectTame(q, v);
      TameTrans(s, q, r);
    } else if r != p {
      ServerDisconnectTame(p, s.clients[order[next]].server.value);
      TameTrans(s, p, r);
    }
  }

  lemma PushTame(s: State, f: Frame)
    requires !IsSender(f)
    ensures Tame(s, Push(s, f))
  {}

  /** The step gives a socket to a pending attempt. */
  predicate Attaches(s: State, e: Event) {
    && e.Authenticate? && e.attempt < |s.attempts| && s.attempts[e.attempt].asked && IsPending(s, e.attempt)
    && !SpaceClosed(s, e.attempt) && s.attempts[e.attempt].server == None
  }

  /** Calls other than those that create a socket or select recipients. */
  lemma CallTame(s: State, e: Event)
    requires Enabled(s, e) && !e.Return? && !e.Microtask? && !e.Broadcast? && !e.Deliver?
    requires e.Authenticate? ==> !s.attempts[e.attempt].asked || !IsPending(s, e.attempt) || SpaceClosed(s, e.attempt)
    ensures Tame(s, Perform(s, e))
  {
    hide Cancel, MarkDisconnected, ServerDisconnectCall, TeardownAll, Reject, Rooms.Join, Rooms.Leave, Owns, Snapshot, Roster;
    TameSelf(s);
    match e {
      case Disconnect(c) => CancelTame(s, c);
      case DisconnectServer(v) => ServerDisconnectTame(s, v);
      case CloseSpace(space, order) => TeardownAllTame(s.(closed := s.closed + {space}), order);
      case Authenticate(a) => RejectTame(s, a, true);
      case _ =>
    }
  }

  lemma AdmitTame(s: State, a: nat, v: nat)
    requires v < |s.servers|
    ensures Tame(s, Admit(s, a, v))
  {
    hide Rooms.Join, Rooms.Register;
  }

  lemma ObserveTame(s: State, o: Observation)
    requires !o.Dispatched?
    ensures Tame(s, Observe(s, o))
  {}

  lemma RunTeardownTame(s: State, v: nat)
    requires v < |s.servers|
    ensures Tame(s, RunTeardown(s, v))
  {}

  /** The microtask asks a pending attempt for its auth payload. */
  predicate Asks(s: State, t: Task) {
    t.PairTask? && IsPending(s, t.attempt) && !SpaceClosed(s, t.attempt)
  }

  lemma RunTaskTame(s: State, t: Task)
    requires !Asks(s, t)
    ensures Tame(s, RunTask(s, t))
  {
    hide Reject, DiscardOf, MarkDisconnected, Rooms.Join, Rooms.Register, Tame;
    TameSelf(s);
    match t {
      case PairTask(a) => RejectTame(s, a, true);
      case DoneTask(a, failed) =>
        RejectTame(s, a, true);
        RejectTame(s, a, false);
        if a < |s.attempts| { DiscardTame(s, s.attempts[a].server); }
        if a < |s.attempts| && s.attempts[a].server.Some? && s.attempts[a].server.value < |s.servers| {
          AdmitTame(s, a, s.attempts[a].server.value);
        }
      case MarkTask(v) => if RunMark(s, v) != s { CancelTame(s, s.servers[v].client); }
      case CloseMarkTask(v) => if RunMark(s, v) != s { CancelTame(s, s.servers[v].client); }
      case ErrorTask(a) => ObserveTame(s, ClientError(a));
      case TeardownTask(v) => if v < |s.servers| { RunTeardownTame(s, v); }
    }
  }

  lemma CompleteTame(s: State, a: nat)
    ensures Tame(s, CompleteAttempt(s, a))
  {
    hide DiscardOf;
    if a < |s.attempts| { DiscardTame(s, s.attempts[a].server); }
  }

  lemma ResumeTame(s: State, f: Frame, encodes: bool)
    requires !f.Sending? && !f.Broadcasting?
    ensures Tame(s, Resume(s, f, encodes))
  {
    hide GroupNext, CompleteAttempt, Rooms.CleanBegin, Rooms.CleanEnd;
    match f {
      case AfterConnection(a) => CompleteTame(s, a);
      case Group(order, next, v) => if v < |s.servers| { GroupNextTame(s, order, next, v); }
      case _ =>
    }
  }

  // Steps that give a socket or send.

  lemma GivenMore(attempts: seq<Attempt>, next: seq<Attempt>, c: nat, v: nat)
    requires |attempts| == |next|
    requires forall a :: 0 <= a < |attempts| ==>
               next[a].client == attempts[a].client && (attempts[a].server.Some? ==> next[a].server == attempts[a].server)
    ensures Given(attempts, c, v) ==> Given(next, c, v)
  {}

  lemma AttachHighest(s: State, q: State, a: nat)
    requires Standing(s) && CurrentHighest(s.clients, s.attempts) && IsPending(s, a) && s.attempts[a].server == None
    requires q.clients == s.clients && q.attempts == s.attempts[a := s.attempts[a].(server := Some(|s.servers|))]
    ensures CurrentHighest(q.clients, q.attempts)
  {
    forall c, b | 0 <= c < |q.clients| && 0 <= b < |q.attempts| ensures Highest(q.clients, q.attempts, c, b) {
      assert Highest(s.clients, s.attempts, c, b);
      assert ClientAgrees(s.clients, s.attempts, s.pending, s.connected, c);
    }
  }

  lemma AttachSuccession(s: State, a: nat)
    requires Inv(s) && Succession(s) && Attaches(s, Authenticate(a))
    ensures Succession(AuthenticateCall(s, a))
  {
    hide Outcomes, Protocol, Membership, Once, LetGo;
    var q := AuthenticateCall(s, a);
    AttachHighest(s, q, a);
    forall c: nat, v: nat ensures Given(s.attempts, c, v) ==> Given(q.attempts, c, v) { GivenMore(s.attempts, q.attempts, c, v); }
    assert q.attempts[a].server == Some(|s.servers|);
    assert SocketGiven(q.attempts, q.servers, |s.servers|);
    hide Standing, CurrentHighest, Given, Exact, Lingering;
  }

  /** One more server socket, which is over before it begins. */
  ghost predicate Spare(s: State, q: State) {
    && q.clients == s.clients && q.attempts == s.attempts && q.packets == s.packets && q.stack == s.stack && q.log == s.log
    && |q.servers| == |s.servers| + 1 && q.servers[..|s.servers|] == s.servers
    && !q.servers[|s.servers|].active && !Lingering(q.rooms, |s.servers|) && LingersLess(s.rooms, q.rooms)
  }

  lemma AuthenticateSpare(s: State, a: nat)
    requires Inv(s) && a < |s.attempts| && s.attempts[a].asked && IsPending(s, a)
    requires !SpaceClosed(s, a) && s.attempts[a].server.Some?
    ensures Spare(s, AuthenticateCall(s, a))
  {
    CoherentRooms(s);
    NewSocket(s);
    CleanupLingering(s.rooms, |s.servers|);
    CleanupEnds(s.rooms, |s.servers|);
    hide Inv, Rooms.Cleanup, Rooms.Coherent, Lingering;
  }

  lemma NewSocket(s: State)
    requires Inv(s)
    ensures |s.servers| !in s.rooms.draining
  {
    hide Standing, Outcomes, Protocol, Once, LetGo, Rooms.Coherent, LeftRooms, DrainFrames;
  }

  lemma SpareSuccession(s: State, q: State)
    requires Succession(s) && Spare(s, q)
    ensures Succession(q)
  {
    hide CurrentHighest, Given, Exact, Lingering;
    forall v | 0 <= v < |s.servers| ensures q.servers[v] == s.servers[v] {
      assert q.servers[..|s.servers|][v] == s.servers[v];
    }
  }

  lemma CleanupEnds(r: Rooms.State, v: nat)
    requires Rooms.Coherent(r) && v !in r.draining
    ensures !Lingering(Rooms.Cleanup(r, v), v)
  {}

  lemma RosterGiven(s: State, v: nat)
    requires Inv(s) && RosterKept(s) && v in s.rooms.roster
    ensures SocketGiven(s.attempts, s.servers, v)
  {
    hide Outcomes, Protocol, Membership, Once, LetGo, Lingering;
    var a: nat :| a < |s.attempts| && s.attempts[a].server == Some(v) && ServerConnection(a) in s.log;
  }

  lemma BroadcastSuccession(s: State, order: seq<nat>)
    requires Inv(s) && RosterKept(s) && Succession(s) && forall i :: 0 <= i < |order| ==> order[i] in s.rooms.roster
    ensures Succession(BroadcastCall(s, order))
  {
    forall i | 0 <= i < |order| ensures SocketGiven(s.attempts, s.servers, order[i]) { RosterGiven(s, order[i]); }
    hide Inv, RosterKept, CurrentHighest, SocketGiven, Exact, Lingering;
  }

  lemma CurrentIsOwn(s: State, c: nat)
    requires Standing(s) && c < |s.clients|
    ensures var k := Current(s.clients, s.attempts, c); k.Some? ==> k.value < |s.servers| && s.servers[k.value].client == c
  {
    assert ClientAgrees(s.clients, s.attempts, s.pending, s.connected, c);
  }

  lemma SentSuccession(s: State, v: nat, broadcast: bool, was: bool, encodes: bool)
    requires Inv(s) && Succession(s) && s.stack != [] && s.stack[0] == Sending(v, broadcast, was)
    ensures Succession(SendingResume(s.(stack := s.stack[1..]), v, broadcast, was, encodes))
  {
    hide Outcomes, Protocol, Membership, Once, LetGo, Agreed, Flagged, OwnServers, CurrentHighest, Given, Exact, Lingering, Current;
    assert FrameGiven(s.attempts, s.servers, s.stack[0]);
    var p := s.(stack := s.stack[1..]);
    var q := SendingResume(p, v, broadcast, was, encodes);
    if q != p {
      assert SocketGiven(s.attempts, s.servers, v);
      CurrentIsOwn(s, s.servers[v].client);
      assert PacketGiven(s.attempts, s.servers, q.packets[|s.packets|]);
    }
  }

  lemma BroadcastingSuccession(s: State, order: seq<nat>)
    requires Succession(s) && s.stack != [] && s.stack[0] == Broadcasting(order)
    ensures Succession(BroadcastingResume(s.(stack := s.stack[1..]), order))
  {
    hide CurrentHighest, SocketGiven, Exact, Lingering;
    assert FrameGiven(s.attempts, s.servers, s.stack[0]);
    var q := BroadcastingResume(s.(stack := s.stack[1..]), order);
    if order != [] {
      assert FrameGiven(q.attempts, q.servers, Broadcasting(order[1..])) by {
        forall i | 0 <= i < |order[1..]| ensures SocketGiven(s.attempts, s.servers, order[1..][i]) {
          assert order[1..][i] == order[i + 1];
        }
      }
    }
  }

  lemma LatestSupersedes(s: State, c: nat, a: nat, v: nat)
    requires CurrentHighest(s.clients, s.attempts) && c < |s.clients| && s.clients[c].attempt == Some(a)
    requires a < |s.attempts| && s.attempts[a].server.Some? && Superseded(s.attempts, c, v)
    ensures v < s.attempts[a].server.value
  {
    var b :| 0 <= b < |s.attempts| && s.attempts[b].client == c && s.attempts[b].server.Some? && s.attempts[b].server.value > v;
    assert Highest(s.clients, s.attempts, c, b);
  }

  /** A live attempt is its client's current one, so what it was given is what is current. */
  lemma OvertakenByCurrent(s: State, c: nat, v: nat)
    requires Standing(s) && c < |s.clients| && Overtaken(s.attempts, c, v)
    ensures Current(s.clients, s.attempts, c).Some? && Current(s.clients, s.attempts, c).value > v
  {}

  /**
    Outside a drain the client is connected through its current attempt's socket, the latest;
    so is the packet's own socket, or it is not, when the packet is sent.
   */
  lemma ArrivalExact(s: State, p: Packet)
    requires Inv(s) && Succession(s) && p in s.packets && s.servers[p.via].client < |s.clients| && Guard(s, p)
    ensures Exact(Arrival(s, p))
  {
    hide Outcomes, Protocol, Membership, Once, LetGo, Linked, OwnServers, Flagged, Lingering;
    var c := s.servers[p.via].client;
    assert PacketGiven(s.attempts, s.servers, p);
    assert ClientAgrees(s.clients, s.attempts, s.pending, s.connected, c);
    if !p.owned && p.captured.value !in s.rooms.draining {
      var a := s.clients[c].attempt.value;
      assert s.attempts[a].server == p.captured;
      var b :| 0 <= b < |s.attempts| && s.attempts[b].client == c && s.attempts[b].server == Some(p.via);
      assert Highest(s.clients, s.attempts, c, b);
      if Superseded(s.attempts, c, p.via) { LatestSupersedes(s, c, a, p.via); }
    } else if Overtaken(s.attempts, c, p.via) {
      OvertakenByCurrent(s, c, p.via);
    }
  }

  lemma DeliverSuccession(s: State, i: nat)
    requires Inv(s) && Succession(s) && i < |s.packets|
    ensures Succession(DeliverCall(s, i))
  {
    var p := s.packets[i];
    assert PacketGiven(s.attempts, s.servers, p);
    if s.servers[p.via].client < |s.clients| && Guard(s, p) { ArrivalExact(s, p); }
    hide Inv, CurrentHighest, SocketGiven, Exact, Lingering, Guard, Arrival;
  }

  // Every step.

  lemma MicrotaskLingers(s: State)
    requires Inv(s) && s.stack == [] && s.tasks != []
    ensures LingersLess(s.rooms, Step(s, Microtask).rooms)
  {
    CoherentRooms(s);
    hide Inv, Rooms.Coherent, Admit, Reject, DiscardOf;
    var p := s.(tasks := s.tasks[1..]);
    var t := s.tasks[0];
    if t.DoneTask? && !t.failed && IsPending(p, t.attempt) && !SpaceClosed(p, t.attempt) && p.attempts[t.attempt].server.Some? {
      AttachedInRange(s, t.attempt);
      AdmitLingers(p, t.attempt, p.attempts[t.attempt].server.value);
    } else {
      hide RunTask;
      TaskNone(p, t);
    }
  }

  lemma AdmitLingers(s: State, a: nat, v: nat)
    requires v < |s.servers|
    ensures LingersLess(s.rooms, Admit(s, a, v).rooms)
  {
    AdmitRooms(s.rooms, v);
    hide Rooms.Join, Rooms.Register;
  }

  lemma StepLingers(s: State, e: Event)
    requires Inv(s)
    ensures LingersLess(s.rooms, Step(s, e).rooms)
  {
    hide Inv, Lingering, Resume, RunTask;
    if Enabled(s, e) {
      match e {
        case Return(encodes) => ResumeNone(s, encodes);
        case Microtask => MicrotaskLingers(s);
        case _ => CallNone(s, e);
      }
    }
  }

  lemma PlainReturn(s: State, f: Frame, encodes: bool)
    requires Succession(s) && s.stack != [] && s.stack[0] == f && !f.Sending? && !f.Broadcasting?
    requires LingersLess(s.rooms, Resume(s.(stack := s.stack[1..]), f, encodes).rooms)
    ensures Succession(Resume(s.(stack := s.stack[1..]), f, encodes))
  {
    hide Succession, LingersLess, Tame, Resume;
    var p := s.(stack := s.stack[1..]);
    PopTame(s);
    ResumeTame(p, f, encodes);
    TameTrans(s, p, Resume(p, f, encodes));
    TameKeeps(s, Resume(p, f, encodes));
  }

  lemma ReturnSuccession(s: State, encodes: bool)
    requires Inv(s) && Succession(s) && s.stack != []
    requires LingersLess(s.rooms, Resume(s.(stack := s.stack[1..]), s.stack[0], encodes).rooms)
    ensures Succession(Resume(s.(stack := s.stack[1..]), s.stack[0], encodes))
  {
    hide Inv, Succession, LingersLess, SendingResume, BroadcastingResume;
    var f := s.stack[0];
    match f {
      case Sending(v, broadcast, was) => SentSuccession(s, v, broadcast, was, encodes);
      case Broadcasting(order) => BroadcastingSuccession(s, order);
      case _ => hide Resume; PlainReturn(s, f, encodes);
    }
  }

  lemma PopTame(s: State)
    ensures s.stack != [] ==> Tame(s, s.(stack := s.stack[1..]))
    ensures s.tasks != [] ==> Tame(s, s.(tasks := s.tasks[1..]))
  {}

  lemma StepSuccession(s: State, e: Event)
    requires Inv(s) && RosterKept(s) && Succession(s)
    ensures Succession(Step(s, e))
  {
    StepLingers(s, e);
    hide Inv, RosterKept, Succession, LingersLess, Tame, Resume, RunTask, AuthenticateCall, DeliverCall;
    if Enabled(s, e) {
      match e {
        case Return(encodes) => ReturnSuccession(s, encodes);
        case Microtask => MicrotaskSuccession(s);
        case Broadcast(order) => BroadcastSuccession(s, order);
        case Deliver(i) => DeliverSuccession(s, i);
        case Authenticate(a) => AuthenticateSuccession(s, a);
        case _ => CallTame(s, e); TameKeeps(s, Step(s, e));
      }
    }
  }

  lemma MicrotaskTame(s: State)
    requires s.tasks != [] && !Asks(s, s.tasks[0])
    ensures Tame(s, RunTask(s.(tasks := s.tasks[1..]), s.tasks[0]))
  {
    hide Tame, RunTask;
    var p := s.(tasks := s.tasks[1..]);
    PopTame(s);
    RunTaskTame(p, s.tasks[0]);
    TameTrans(s, p, RunTask(p, s.tasks[0]));
  }

  lemma MicrotaskSuccession(s: State)
    requires Succession(s) && s.tasks != []
    requires LingersLess(s.rooms, RunTask(s.(tasks := s.tasks[1..]), s.tasks[0]).rooms)
    ensures Succession(RunTask(s.(tasks := s.tasks[1..]), s.tasks[0]))
  {
    hide Succession, LingersLess, Tame;
    if Asks(s, s.tasks[0]) {
      AskSuccession(s, s.tasks[0].attempt);
    } else {
      hide RunTask;
      MicrotaskTame(s);
      TameKeeps(s, RunTask(s.(tasks := s.tasks[1..]), s.tasks[0]));
    }
  }

  lemma AskSuccession(s: State, a: nat)
    requires Succession(s) && a < |s.attempts| && s.tasks != []
    ensures Succession(SetAttempt(s.(tasks := s.tasks[1..]), a, s.attempts[a].(asked := true)))
  {
    hide Exact, Lingering;
    var q := SetAttempt(s.(tasks := s.tasks[1..]), a, s.attempts[a].(asked := true));
    forall c, b | 0 <= c < |q.clients| && 0 <= b < |q.attempts| ensures Highest(q.clients, q.attempts, c, b) {
      assert Highest(s.clients, s.attempts, c, b);
    }
    forall c: nat, v: nat ensures Given(s.attempts, c, v) ==> Given(q.attempts, c, v) { GivenMore(s.attempts, q.attempts, c, v); }
    hide CurrentHighest, Given;
  }

  lemma AuthenticateSuccession(s: State, a: nat)
    requires Inv(s) && Succession(s) && a < |s.attempts| && LingersLess(s.rooms, AuthenticateCall(s, a).rooms)
    ensures Succession(AuthenticateCall(s, a))
  {
    hide Inv, Succession, LingersLess, Tame, AuthenticateCall, Spare;
    if Attaches(s, Authenticate(a)) {
      AttachSuccession(s, a);
    } else if s.attempts[a].asked && IsPending(s, a) && !SpaceClosed(s, a) {
      AuthenticateSpare(s, a);
      SpareSuccession(s, AuthenticateCall(s, a));
    } else {
      CallTame(s, Authenticate(a));
      TameKeeps(s, AuthenticateCall(s, a));
    }
  }

  lemma InitialSuccession(s: State)
    requires Initial(s)
    ensures Succession(s) && RosterKept(s)
  {}

  lemma {:induction false} RunSuccession(s: State, events: seq<Event>)
    requires Inv(s) && RosterKept(s) && Succession(s)
    ensures Succession(Run(s, events))
    decreases |events|
  {
    hide Inv, RosterKept, Succession, Step;
    if events != [] {
      StepSuccession(s, events[0]);
      StepInv(s, events[0]);
      StepRoster(s, events[0]);
      RunSuccession(Step(s, events[0]), events[1..]);
    }
  }
}
