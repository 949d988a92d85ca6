/**
  Room membership along the lifecycle: the three views stay coherent, the frames on the stack
  name real things, and every socket that was let go is out of every room.
 */
module LifecycleMembership {
  import opened Common
  import Rooms
  import opened Lifecycle
  import opened LifecycleStanding
  import opened LifecycleOutcomes
  import opened LifecycleTeardown

  ghost predicate RoomsInRange(rooms: Rooms.State, servers: nat) {
    forall v :: v in rooms.cleaned || v in rooms.draining || v in rooms.roster ==> v < servers
  }

  ghost predicate DrainFrames(stack: seq<Frame>, rooms: Rooms.State) {
    && (forall f: Frame :: f in stack && f.CleanEnd? ==> f.server in rooms.cleaned)
    && (forall v :: v in rooms.draining ==> CleanEnd(v, true) in stack || CleanEnd(v, false) in stack)
  }

  /** After `disconnect` a socket is in no room, and the report itself saw none. */
  ghost predicate LeftRooms(log: seq<Observation>, rooms: Rooms.State) {
    && (forall v: nat :: Left(log, v) ==> v in rooms.cleaned && v !in rooms.draining)
    && (forall o: Observation :: o in log && o.ServerDisconnect? ==> o.rooms == {})
  }

  ghost predicate Membership(s: State) {
    && Rooms.Coherent(s.rooms)
    && RoomsInRange(s.rooms, |s.servers|)
    && FramesInRange(s.stack, |s.clients|, |s.servers|)
    && DrainFrames(s.stack, s.rooms)
    && LeftRooms(s.log, s.rooms)
  }

  /** The rooms of sockets in range change, except that none starts or ends its cleanup by halves. */
  ghost predicate Later(r: Rooms.State, q: Rooms.State, servers: nat) {
    && Rooms.Coherent(q) && RoomsInRange(q, servers)
    && r.cleaned <= q.cleaned && q.draining == r.draining
  }

  ghost predicate Calm(s: State, q: State) {
    && |s.servers| <= |q.servers| && |q.clients| == |s.clients|
    && Later(s.rooms, q.rooms, |q.servers|)
    && StillLog(s.log, q.log)
    && (forall f: Frame :: f.CleanEnd? ==> (f in s.stack <==> f in q.stack))
    && FramesInRange(q.stack, |q.clients|, |q.servers|)
  }

  lemma StillLogRooms(log: seq<Observation>, next: seq<Observation>, rooms: Rooms.State, later: Rooms.State)
    requires StillLog(log, next) && LeftRooms(log, rooms)
    requires rooms.cleaned <= later.cleaned && later.draining == rooms.draining
    ensures LeftRooms(next, later)
  {
    hide Leaving, Left, LeavingFirst;
    StillLogMembers(log, next);
  }

  lemma CalmKeeps(s: State, q: State)
    requires Membership(s) && Calm(s, q)
    ensures Membership(q)
  {
    hide LeftRooms, StillLog;
    StillLogRooms(s.log, q.log, s.rooms, q.rooms);
  }

  lemma CalmTrans(s: State, q: State, r: State)
    requires Calm(s, q) && Calm(q, r) && (q.log == s.log || r.log == q.log)
    ensures Calm(s, r)
  {
    hide Rooms.Coherent;
  }

  lemma CalmSelf(s: State)
    requires Membership(s)
    ensures Calm(s, s)
  {
    hide Rooms.Coherent;
  }

  // The room operations.

  lemma CleanupLater(r: Rooms.State, v: nat, servers: nat)
    requires Rooms.Coherent(r) && RoomsInRange(r, servers) && v < servers
    ensures Later(r, Rooms.Cleanup(r, v), servers) && v in Rooms.Cleanup(r, v).cleaned
  {
    if v !in r.cleaned {
      CoherentDraining(r);
      Rooms.CleanupRemoves(r, v);
      hide Rooms.Coherent;
    }
  }

  lemma CoherentDraining(r: Rooms.State)
    requires Rooms.Coherent(r)
    ensures r.draining <= r.cleaned
  {}

  lemma JoinLater(r: Rooms.State, v: nat, room: Rooms.Room, servers: nat)
    requires Rooms.Coherent(r) && RoomsInRange(r, servers) && v < servers
    ensures Later(r, Rooms.Join(r, v, room), servers)
  {
    Rooms.JoinKeepsCoherent(r, v, room);
    hide Rooms.Coherent;
  }

  lemma LeaveLater(r: Rooms.State, v: nat, room: Rooms.Room, servers: nat)
    requires Rooms.Coherent(r) && RoomsInRange(r, servers) && v < servers
    ensures Later(r, Rooms.Leave(r, v, room), servers)
  {
    Rooms.LeaveKeepsCoherent(r, v, room);
    hide Rooms.Coherent;
  }

  lemma AdmitLater(r: Rooms.State, v: nat, servers: nat)
    requires Rooms.Coherent(r) && RoomsInRange(r, servers) && v < servers
    ensures Later(r, Rooms.Join(Rooms.Register(r, v), v, v), servers)
  {
    var q := Rooms.Register(r, v);
    Rooms.RegisterKeepsCoherent(r, v);
    assert RoomsInRange(q, servers) && q.cleaned == r.cleaned && q.draining == r.draining;
    hide Rooms.Coherent, Rooms.Join;
    JoinLater(q, v, v, servers);
  }

  lemma CleanBeginRooms(s: State, v: nat, sync: bool)
    requires Membership(s) && v < |s.servers| && s.stack != [] && s.stack[0] == Clean(v, sync)
    requires !Left(s.log, v)
    ensures Membership(CleanResume(s.(stack := s.stack[1..]), v, sync))
  {
    var q := CleanResume(s.(stack := s.stack[1..]), v, sync);
    Rooms.CleanBeginKeepsCoherent(s.rooms, v);
    hide Rooms.Coherent, Left;
    PopMembers(s.stack);
    forall f ensures f in q.stack <==> f in s.stack[1..] || f == CleanEnd(v, sync) {}
    CleanedAfterBegin(s.rooms, v);
  }

  lemma CleanedAfterBegin(r: Rooms.State, v: nat)
    ensures var q := Rooms.CleanBegin(r, v);
            q.cleaned == r.cleaned + {v} && q.draining <= r.draining + {v} && q.roster == r.roster
            && r.draining <= q.draining
  {}

  lemma CleanEndRooms(s: State, v: nat, sync: bool)
    requires Membership(s) && s.stack != [] && s.stack[0] == CleanEnd(v, sync)
    requires CleanUnique(s.stack)
    ensures Membership(CleanEndResume(s.(stack := s.stack[1..]), v, sync))
  {
    var rest := s.stack[1..];
    var q := CleanEndResume(s.(stack := rest), v, sync);
    assert CleanEnd(v, sync) in s.stack;
    ViewAfterEnd(s.rooms, v);
    Rooms.CleanEndKeepsCoherent(s.rooms, v);
    hide Rooms.Coherent, Left;
    LogGrows(s.log, ServerDisconnect(v, {}));
    PopMembers(s.stack);
    SwapClean(s.stack, CleanEnd(v, sync));
    forall f ensures f in q.stack <==> f in rest || f == Ended(v, sync) {}
    forall o ensures o in q.log <==> o in s.log || o == ServerDisconnect(v, {}) {}
  }

  lemma ViewAfterEnd(r: Rooms.State, v: nat)
    requires Rooms.Coherent(r) && v in r.cleaned
    ensures var q := Rooms.CleanEnd(r, v);
            && Rooms.View(q, v) == {} && q.cleaned == r.cleaned && q.draining == r.draining - {v}
            && q.roster <= r.roster
  {}

  // Steps.

  lemma DiscardCalm(s: State, v: Option<nat>)
    requires Membership(s)
    ensures Calm(s, DiscardOf(s, v))
    ensures v.Some? && v.value < |s.servers| ==> v.value in DiscardOf(s, v).rooms.cleaned
  {
    hide Rooms.Coherent, Rooms.Cleanup;
    if v.Some? && v.value < |s.servers| { CleanupLater(s.rooms, v.value, |s.servers|); }
  }

  /** Fields that membership does not read. */
  ghost predicate SameMembership(s: State, q: State) {
    && q.rooms == s.rooms && q.stack == s.stack && q.log == s.log
    && |q.clients| == |s.clients| && |q.servers| == |s.servers|
  }

  lemma AbandonCalm(s: State, a: nat, phase: Phase)
    requires Membership(s) && IsPending(s, a)
    ensures Calm(s, Abandon(s, a, phase)) && Abandon(s, a, phase).log == s.log
  {
    hide Rooms.Coherent, Rooms.Cleanup, FramesInRange, RoomsInRange;
    var v := s.attempts[a].server;
    if v.Some? && v.value < |s.servers| { CleanupLater(s.rooms, v.value, |s.servers|); }
  }

  lemma CancelCalm(s: State, c: nat)
    requires Membership(s) && c < |s.clients|
    ensures Calm(s, Cancel(s, c)) && Cancel(s, c).log == s.log
  {
    hide Membership, Calm, Abandon;
    CalmSelf(s);
    var attempt := s.clients[c].attempt;
    if attempt.Some? && IsPending(s, attempt.value) { AbandonCalm(s, attempt.value, Cancelled); }
  }

  lemma RejectCalm(s: State, a: nat, encodes: bool)
    requires Membership(s)
    ensures Calm(s, Reject(s, a, encodes)) && Reject(s, a, encodes).log == s.log
  {
    hide Membership, Abandon, Rooms.Coherent;
    CalmSelf(s);
    if IsPending(s, a) { AbandonCalm(s, a, Rejected(encodes)); }
  }

  lemma {:induction false} CancelOthersCalm(s: State, i: nat, manager: nat, v: nat)
    requires Membership(s)
    ensures Calm(s, CancelOthers(s, i, manager, v)) && CancelOthers(s, i, manager, v).log == s.log
    decreases |s.clients| - i
  {
    hide Membership, Calm;
    CalmSelf(s);
    if i < |s.clients| {
      var q := if i in s.pending && s.clients[i].manager == manager && !Owns(s, i, v) then Cancel(s, i) else s;
      CancelCalm(s, i);
      CalmKeeps(s, q);
      CancelOthersCalm(q, i + 1, manager, v);
      CalmTrans(s, q, CancelOthers(q, i + 1, manager, v));
    }
  }

  lemma SameMembershipKeeps(s: State, q: State)
    requires Membership(s) && SameMembership(s, q)
    ensures Membership(q)
  {}

  lemma PushMembership(s: State, f: Frame)
    requires Membership(s) && FramesInRange([f], |s.clients|, |s.servers|) && !f.CleanEnd?
    ensures Membership(Push(s, f))
  {
    hide Rooms.Coherent, LeftRooms, RoomsInRange;
    assert f in [f];
  }

  lemma PopMembership(s: State)
    requires Membership(s) && s.stack != [] && !s.stack[0].CleanEnd?
    ensures Membership(s.(stack := s.stack[1..]))
  {
    hide Rooms.Coherent, LeftRooms, RoomsInRange;
    PopMembers(s.stack);
  }

  lemma ObserveMembership(s: State, o: Observation)
    requires Membership(s) && !o.ServerDisconnect?
    ensures Membership(Observe(s, o))
  {
    hide Rooms.Coherent, Left;
    LogGrows(s.log, o);
  }

  lemma ServerDisconnectMembership(s: State, v: nat)
    requires Membership(s) && v < |s.servers|
    ensures Membership(ServerDisconnectCall(s, v))
  {
    hide Membership;
    if !s.servers[v].torn {
      var q := SetServer(s, v, s.servers[v].(torn := true, active := false));
      SameMembershipKeeps(s, q);
      var o := ServerDisconnecting(v, Rooms.View(s.rooms, v));
      ObserveMembership(q, o);
      PushMembership(Observe(q, o), Clean(v, true));
    }
  }

  lemma RunTeardownMembership(s: State, v: nat)
    requires Membership(s) && v < |s.servers|
    ensures Membership(RunTeardown(s, v))
  {
    hide Membership;
    var q := SetServer(s, v, s.servers[v].(active := false));
    SameMembershipKeeps(s, q);
    var o := ServerDisconnecting(v, Rooms.View(s.rooms, v));
    ObserveMembership(q, o);
    PushMembership(Observe(q, o), Clean(v, false));
  }

  lemma TeardownMembership(s: State, v: nat, closing: bool)
    requires Membership(s) && v < |s.servers|
    ensures Membership(Teardown(s, v, closing))
  {
    hide Membership;
    SameMembershipKeeps(s, Teardown(s, v, closing));
  }

  lemma {:induction false} TeardownAllMembership(s: State, order: seq<nat>)
    requires Membership(s)
    ensures Membership(TeardownAll(s, order))
    decreases |order|
  {
    hide Membership, Teardown;
    if order != [] {
      var q := if order[0] < |s.servers| then Teardown(s, order[0], true) else s;
      if order[0] < |s.servers| { TeardownMembership(s, order[0], true); }
      TeardownAllMembership(q, order[1..]);
    }
  }

  lemma GroupNextMembership(s: State, order: seq<nat>, next: nat, v: nat)
    requires Membership(s) && v < |s.servers|
    ensures Membership(GroupNext(s, order, next, v))
  {
    hide Membership, CancelOthers, ServerDisconnectCall, Calm;
    if next < |order| {
      var q := Push(s, Group(order, next + 1, v));
      PushMembership(s, Group(order, next + 1, v));
      var c := order[next];
      if c < |s.clients| && s.clients[c].connected && s.clients[c].server.Some?
         && s.clients[c].server.value < |s.servers|
      {
        ServerDisconnectMembership(q, s.clients[c].server.value);
      }
    } else {
      var q := CancelOthers(s, 0, ManagerOf(s, v), v);
      CancelOthersCalm(s, 0, ManagerOf(s, v), v);
      CalmKeeps(s, q);
      ServerDisconnectMembership(q, v);
    }
  }

  lemma SpawnMembership(s: State, servers: seq<Server>)
    requires Membership(s) && |s.servers| <= |servers|
    ensures Membership(s.(servers := servers))
  {
    hide Rooms.Coherent, LeftRooms;
  }

  lemma AuthenticateMembership(s: State, a: nat)
    requires Membership(s) && a < |s.attempts|
    ensures Membership(AuthenticateCall(s, a))
  {
    hide Membership, Calm, Rooms.Cleanup, Reject;
    if !s.attempts[a].asked || !IsPending(s, a) {
    } else if SpaceClosed(s, a) {
      RejectCalm(s, a, true);
      CalmKeeps(s, Reject(s, a, true));
    } else {
      var v := |s.servers|;
      var servers := s.servers + [Server(s.attempts[a].client, false, true, false, false)];
      var q := s.(servers := servers);
      SpawnMembership(s, servers);
      if s.attempts[a].server.Some? {
        DiscardCalm(q, Some(v));
        CalmKeeps(q, Discard(q, v));
      } else {
        SameMembershipKeeps(q, AuthenticateCall(s, a));
      }
    }
  }

  lemma AdmitMembership(s: State, a: nat, v: nat)
    requires Membership(s) && v < |s.servers|
    ensures Membership(Admit(s, a, v))
  {
    hide Membership, Calm, Rooms.Join, Rooms.Register;
    var rooms := Rooms.Join(Rooms.Register(s.rooms, v), v, v);
    var q := s.(rooms := rooms);
    RoomsCalm(s, rooms, v);
    CalmKeeps(s, q);
    var r := SetServer(q, v, s.servers[v].(connected := true));
    SameMembershipKeeps(q, r);
    ObserveMembership(r, ServerConnection(a));
    PushMembership(Observe(r, ServerConnection(a)), AfterConnection(a));
  }

  lemma RoomsCalm(s: State, rooms: Rooms.State, v: nat)
    requires Membership(s) && v < |s.servers|
    requires rooms == Rooms.Join(Rooms.Register(s.rooms, v), v, v)
    ensures Calm(s, s.(rooms := rooms))
  {
    hide Rooms.Join, Rooms.Register, Rooms.Coherent;
    AdmitLater(s.rooms, v, |s.servers|);
  }

  lemma JoinMembership(s: State, v: nat, room: Rooms.Room)
    requires Membership(s) && v < |s.servers|
    ensures Membership(s.(rooms := Rooms.Join(s.rooms, v, room)))
    ensures Membership(s.(rooms := Rooms.Leave(s.rooms, v, room)))
  {
    hide Rooms.Join, Rooms.Leave, Rooms.Coherent;
    JoinLater(s.rooms, v, room, |s.servers|);
    LeaveLater(s.rooms, v, room, |s.servers|);
    CalmKeeps(s, s.(rooms := Rooms.Join(s.rooms, v, room)));
    CalmKeeps(s, s.(rooms := Rooms.Leave(s.rooms, v, room)));
  }

  lemma CallMembership(s: State, e: Event)
    requires Membership(s) && Standing(s) && Enabled(s, e) && !e.Return? && !e.Microtask?
    ensures Membership(Perform(s, e))
  {
    hide Membership, Standing, Calm, Cancel, AuthenticateCall, TeardownAll, ServerDisconnectCall, Rooms.Join, Rooms.Leave,
         Guard, Superseded, Current;
    match e {
      case Connect(c) => SameMembershipKeeps(s, Perform(s, e));
      case Disconnect(c) =>
        if s.clients[c].connected {
          SameMembershipKeeps(s, MarkDisconnected(s, c));
          PushMembership(MarkDisconnected(s, c), Tail(c));
        } else {
          CancelCalm(s, c);
          CalmKeeps(s, Cancel(s, c));
        }
      case DisconnectServer(v) => ServerDisconnectMembership(s, v);
      case DisconnectGroup(v, order) => PushMembership(s, Group(order, 0, v));
      case CloseSpace(space, order) =>
        SameMembershipKeeps(s, s.(closed := s.closed + {space}));
        TeardownAllMembership(s.(closed := s.closed + {space}), order);
      case Authenticate(a) => AuthenticateMembership(s, a);
      case Complete(a, failed, encodes) => SameMembershipKeeps(s, Perform(s, e));
      case JoinRoom(v, room) => JoinMembership(s, v, room);
      case LeaveRoom(v, room) => JoinMembership(s, v, room);
      case Emit(v) => PushMembership(s, Sending(v, false, s.clients[s.servers[v].client].connected));
      case Broadcast(order) => PushMembership(s, Broadcasting(order));
      case Deliver(i) => DeliverMembership(s, i);
    }
  }

  lemma DeliverMembership(s: State, i: nat)
    requires Membership(s) && i < |s.packets|
    ensures Membership(DeliverCall(s, i))
  {
    hide Membership, Guard, Superseded, Current;
    var p := s.packets[i];
    var q := s.(packets := s.packets[..i] + s.packets[i + 1..]);
    SameMembershipKeeps(s, q);
    if p.via < |s.servers| && s.servers[p.via].client < |s.clients| && Guard(s, p) {
      ObserveMembership(q, Arrival(s, p));
    }
  }

  lemma MicrotaskMembership(s: State, t: Task)
    requires Membership(s) && Standing(s)
    ensures Membership(RunTask(s, t))
  {
    hide Membership, Standing, Calm, RunTeardown, Admit, Reject, DiscardOf;
    match t {
      case PairTask(a) =>
        RejectCalm(s, a, true);
        CalmKeeps(s, Reject(s, a, true));
        if IsPending(s, a) && !SpaceClosed(s, a) { SameMembershipKeeps(s, RunTask(s, t)); }
      case DoneTask(a, failed) =>
        RejectCalm(s, a, true);
        RejectCalm(s, a, false);
        CalmKeeps(s, Reject(s, a, true));
        CalmKeeps(s, Reject(s, a, false));
        if a < |s.attempts| {
          DiscardCalm(s, s.attempts[a].server);
          CalmKeeps(s, DiscardOf(s, s.attempts[a].server));
          if s.attempts[a].server.Some? && s.attempts[a].server.value < |s.servers| {
            AdmitMembership(s, a, s.attempts[a].server.value);
          }
        }
      case ErrorTask(a) => ObserveMembership(s, ClientError(a));
      case TeardownTask(v) => if v < |s.servers| { RunTeardownMembership(s, v); }
      case MarkTask(v) => SameMembershipKeeps(s, RunTask(s, t));
      case CloseMarkTask(v) => SameMembershipKeeps(s, RunTask(s, t));
    }
  }

  lemma CompleteMembership(s: State, a: nat)
    requires Membership(s)
    ensures Membership(CompleteAttempt(s, a))
  {
    hide Membership, Calm, DiscardOf;
    if a < |s.attempts| {
      if IsPending(s, a) {
        var q := CompleteAttempt(s, a).(stack := s.stack);
        SameMembershipKeeps(s, q);
        PushMembership(q, Flushing(a));
      } else {
        DiscardCalm(s, s.attempts[a].server);
        CalmKeeps(s, DiscardOf(s, s.attempts[a].server));
      }
    }
  }

  lemma BroadcastingMembership(s: State, order: seq<nat>)
    requires Membership(s)
    ensures Membership(BroadcastingResume(s, order))
  {
    hide Membership;
    if order != [] {
      PushMembership(s, Broadcasting(order[1..]));
      if order[0] < |s.servers| && s.servers[order[0]].client < |s.clients| {
        PushMembership(Push(s, Broadcasting(order[1..])),
                       Sending(order[0], true, s.clients[s.servers[order[0]].client].connected));
      }
    }
  }

  lemma ReturnMembership(s: State, encodes: bool)
    requires Membership(s) && Protocol(s) && s.stack != []
    ensures Membership(Resume(s.(stack := s.stack[1..]), s.stack[0], encodes))
  {
    hide Membership, Protocol, CleanResume, CleanEndResume, GroupNext, CompleteAttempt, BroadcastingResume, Teardown;
    var p := s.(stack := s.stack[1..]);
    var f := s.stack[0];
    FrameHead(s);
    if !f.CleanEnd? { PopMembership(s); }
    match f {
      case AfterConnection(a) => CompleteMembership(p, a);
      case Flushing(a) => ObserveMembership(p, ClientConnect(a));
      case Tail(c) =>
        if p.clients[c].server.Some? && p.clients[c].server.value < |p.servers| {
          TeardownMembership(p, p.clients[c].server.value, false);
        }
      case Clean(v, sync) => CleanNotLeft(s); CleanBeginRooms(s, v, sync);
      case CleanEnd(v, sync) => UniqueOf(s); CleanEndRooms(s, v, sync);
      case Ended(v, sync) => SameMembershipKeeps(p, Resume(p, f, encodes));
      case Group(order, next, v) => GroupNextMembership(p, order, next, v);
      case Sending(v, broadcast, was) => SameMembershipKeeps(p, Resume(p, f, encodes));
      case Broadcasting(order) => BroadcastingMembership(p, order);
    }
  }

  lemma CleanNotLeft(s: State)
    requires Protocol(s) && s.stack != [] && s.stack[0].Clean?
    ensures !Left(s.log, s.stack[0].server)
  {
    hide Left, Leaving, LeavingFirst;
    assert s.stack[0] in s.stack;
    assert InClean(s.stack, s.stack[0].server);
  }

  lemma FrameHead(s: State)
    requires Membership(s) && s.stack != []
    ensures FramesInRange([s.stack[0]], |s.clients|, |s.servers|)
    ensures var f := s.stack[0];
            && (f.Tail? ==> f.client < |s.clients|)
            && (f.Clean? || f.Ended? ==> f.server < |s.servers|)
            && (f.Group? ==> f.initiator < |s.servers|)
  {
    hide Rooms.Coherent, LeftRooms, RoomsInRange, DrainFrames;
    assert s.stack[0] in s.stack;
  }

  lemma PerformMembership(s: State, e: Event)
    requires Membership(s) && Protocol(s) && Standing(s) && Enabled(s, e)
    ensures Membership(Perform(s, e))
  {
    hide Membership, Protocol, Standing, Resume, RunTask;
    match e {
      case Return(encodes) => ReturnMembership(s, encodes);
      case Microtask =>
        var p := s.(tasks := s.tasks[1..]);
        SameMembershipKeeps(s, p);
        SameStandingKeeps(s, p);
        MicrotaskMembership(p, s.tasks[0]);
      case _ => CallMembership(s, e);
    }
  }
}
