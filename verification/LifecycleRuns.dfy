/**
  Whole runs of the lifecycle: whatever applications do, in whatever order, the separate
  invariants hold together, attempts only move forward, and the log only grows.
 */
module LifecycleRuns {
  import opened Common
  import Rooms
  import opened Lifecycle
  import opened LifecycleStanding
  import opened LifecycleOutcomes
  import opened LifecycleTeardown
  import opened LifecycleMembership

  // How attempts move.

  predicate Over(phase: Phase) {
    phase.Cancelled? || phase.Rejected?
  }

  /** Let go without ever having been connected. */
  predicate Dropped(attempt: Attempt) {
    Over(attempt.phase) && !attempt.connected
  }

  /** An attempt never changes hands, never trades its socket, and stays over once over. */
  ghost predicate AttemptMoves(before: Attempt, after: Attempt) {
    && after.client == before.client
    && (before.server.Some? ==> after.server == before.server)
    && (before.connected ==> after.connected)
    && (Over(before.phase) ==> after.phase == before.phase && after.connected == before.connected)
    && (before.phase == Established ==> !after.phase.Rejected? && after.phase != Pending)
  }

  /** The socket of every attempt dropped on the way is out of the room indexes. */
  ghost predicate Moves(s: State, q: State) {
    && |s.attempts| <= |q.attempts| && s.rooms.cleaned <= q.rooms.cleaned
    && (forall a :: 0 <= a < |s.attempts| ==> AttemptMoves(s.attempts[a], q.attempts[a]))
    && (forall a :: 0 <= a < |q.attempts| && Dropped(q.attempts[a]) && q.attempts[a].server.Some? ==>
          || q.attempts[a].server.value in q.rooms.cleaned
          || (a < |s.attempts| && Dropped(s.attempts[a]) && s.attempts[a].server == q.attempts[a].server))
  }

  ghost predicate LetGo(s: State) {
    forall a :: 0 <= a < |s.attempts| && Dropped(s.attempts[a]) && s.attempts[a].server.Some? ==>
      s.attempts[a].server.value in s.rooms.cleaned
  }

  lemma MovesKeepLetGo(s: State, q: State)
    requires LetGo(s) && Moves(s, q)
    ensures LetGo(q)
  {}

  lemma MovesTrans(s: State, q: State, r: State)
    requires Moves(s, q) && Moves(q, r)
    ensures Moves(s, r)
  {
    forall a | 0 <= a < |s.attempts| ensures AttemptMoves(s.attempts[a], r.attempts[a]) {
      assert AttemptMoves(s.attempts[a], q.attempts[a]) && AttemptMoves(q.attempts[a], r.attempts[a]);
    }
  }

  /** Attempts and cleaned sockets stay, or sockets are only added to the cleaned ones. */
  lemma StillMoves(s: State, q: State)
    requires q.attempts == s.attempts && s.rooms.cleaned <= q.rooms.cleaned
    ensures Moves(s, q)
  {}

  lemma CleanupCleans(r: Rooms.State, v: nat)
    ensures Rooms.Cleanup(r, v).cleaned == r.cleaned + {v}
  {}

  lemma DiscardMoves(s: State, v: Option<nat>)
    ensures Moves(s, DiscardOf(s, v))
  {
    hide Rooms.Cleanup;
    if v.Some? { CleanupCleans(s.rooms, v.value); }
  }

  lemma AbandonMoves(s: State, a: nat, phase: Phase)
    requires Standing(s) && IsPending(s, a) && (phase.Cancelled? || phase.Rejected?)
    ensures Moves(s, Abandon(s, a, phase))
  {
    hide Rooms.Cleanup, Agreed, OwnServers;
    var v := s.attempts[a].server;
    if v.Some? { CleanupCleans(s.rooms, v.value); }
  }

  lemma CancelMoves(s: State, c: nat)
    requires Standing(s) && c < |s.clients|
    ensures Moves(s, Cancel(s, c))
  {
    hide Standing, Moves, Abandon;
    StillMoves(s, s);
    var attempt := s.clients[c].attempt;
    if attempt.Some? && IsPending(s, attempt.value) { AbandonMoves(s, attempt.value, Cancelled); }
  }

  lemma RejectMoves(s: State, a: nat, encodes: bool)
    requires Standing(s)
    ensures Moves(s, Reject(s, a, encodes))
  {
    hide Standing, Abandon;
    StillMoves(s, s);
    if IsPending(s, a) {
      AbandonMoves(s, a, Rejected(encodes));
      StillMoves(Abandon(s, a, Rejected(encodes)), Reject(s, a, encodes));
      MovesTrans(s, Abandon(s, a, Rejected(encodes)), Reject(s, a, encodes));
    }
  }

  lemma MarkMoves(s: State, c: nat)
    requires Standing(s) && c < |s.clients| && s.clients[c].connected
    ensures Moves(s, MarkDisconnected(s, c))
  {
    hide OwnServers, Linked;
    assert ClientAgrees(s.clients, s.attempts, s.pending, s.connected, c);
  }

  lemma {:induction false} CancelOthersMoves(s: State, i: nat, manager: nat, v: nat)
    requires Standing(s)
    ensures Moves(s, CancelOthers(s, i, manager, v))
    decreases |s.clients| - i
  {
    hide Standing, Moves;
    StillMoves(s, s);
    if i < |s.clients| {
      var q := if i in s.pending && s.clients[i].manager == manager && !Owns(s, i, v) then Cancel(s, i) else s;
      CancelMoves(s, i);
      CancelStanding(s, i);
      CancelOthersMoves(q, i + 1, manager, v);
      MovesTrans(s, q, CancelOthers(q, i + 1, manager, v));
    }
  }

  lemma {:induction false} TeardownAllSameAttempts(s: State, order: seq<nat>)
    ensures var q := TeardownAll(s, order);
            q.attempts == s.attempts && q.rooms == s.rooms && q.log == s.log && q.stack == s.stack && q.clients == s.clients
    decreases |order|
  {
    if order != [] {
      TeardownAllSameAttempts(if order[0] < |s.servers| then Teardown(s, order[0], true) else s, order[1..]);
    }
  }

  lemma FlagMoves(s: State, a: nat, mute: bool)
    requires a < |s.attempts|
    ensures Moves(s, SetAttempt(s, a, s.attempts[a].(asked := true)))
    ensures Moves(s, SetAttempt(s, a, s.attempts[a].(completed := true, mute := mute)))
  {}

  lemma AuthenticateMoves(s: State, a: nat)
    requires Standing(s) && a < |s.attempts|
    ensures Moves(s, AuthenticateCall(s, a))
  {
    hide Standing, Rooms.Cleanup, Reject;
    var v := |s.servers|;
    StillMoves(s, s);
    RejectMoves(s, a, true);
    CleanupCleans(s.rooms, v);
  }

  lemma GroupNextMoves(s: State, order: seq<nat>, next: nat, v: nat)
    requires Standing(s) && v < |s.servers|
    ensures Moves(s, GroupNext(s, order, next, v))
  {
    hide Standing, CancelOthers, Moves;
    if next < |order| {
      StillMoves(s, GroupNext(s, order, next, v));
    } else {
      var q := CancelOthers(s, 0, ManagerOf(s, v), v);
      CancelOthersMoves(s, 0, ManagerOf(s, v), v);
      StillMoves(q, ServerDisconnectCall(q, v));
      MovesTrans(s, q, ServerDisconnectCall(q, v));
    }
  }

  lemma CompleteMoves(s: State, a: nat)
    ensures Moves(s, CompleteAttempt(s, a))
  {
    hide DiscardOf;
    StillMoves(s, s);
    if a < |s.attempts| { DiscardMoves(s, s.attempts[a].server); }
  }

  lemma ResumeMoves(s: State, f: Frame, encodes: bool)
    requires Standing(s)
    ensures Moves(s, Resume(s, f, encodes))
  {
    hide Standing, Moves, GroupNext, CompleteAttempt, Rooms.CleanBegin, Rooms.CleanEnd;
    match f {
      case AfterConnection(a) => CompleteMoves(s, a);
      case Group(order, next, v) =>
        if v < |s.servers| { GroupNextMoves(s, order, next, v); } else { StillMoves(s, s); }
      case Clean(v, sync) =>
        CleanKeepsCleaned(s.rooms, v);
        StillMoves(s, Resume(s, f, encodes));
      case CleanEnd(v, sync) =>
        CleanKeepsCleaned(s.rooms, v);
        StillMoves(s, Resume(s, f, encodes));
      case _ => StillMoves(s, Resume(s, f, encodes));
    }
  }

  lemma CleanKeepsCleaned(r: Rooms.State, v: nat)
    ensures r.cleaned <= Rooms.CleanBegin(r, v).cleaned && Rooms.CleanEnd(r, v).cleaned == r.cleaned
  {}

  lemma RunTaskMoves(s: State, t: Task)
    requires Standing(s)
    ensures Moves(s, RunTask(s, t))
  {
    hide Standing, Moves, Reject, DiscardOf, MarkDisconnected;
    match t {
      case PairTask(a) =>
        RejectMoves(s, a, true);
        StillMoves(s, s);
        if a < |s.attempts| { FlagMoves(s, a, false); }
      case DoneTask(a, failed) =>
        RejectMoves(s, a, true);
        RejectMoves(s, a, false);
        StillMoves(s, s);
        if a < |s.attempts| {
          DiscardMoves(s, s.attempts[a].server);
          if s.attempts[a].server.Some? && s.attempts[a].server.value < |s.servers| {
            StillMoves(s, Admit(s, a, s.attempts[a].server.value));
          }
        }
      case MarkTask(v) =>
        StillMoves(s, s);
        if RunMark(s, v) != s { MarkMoves(s, s.servers[v].client); }
      case CloseMarkTask(v) =>
        StillMoves(s, s);
        if RunMark(s, v) != s { MarkMoves(s, s.servers[v].client); }
      case _ => StillMoves(s, RunTask(s, t));
    }
  }

  lemma JoinKeepsCleaned(r: Rooms.State, v: nat, room: Rooms.Room)
    ensures Rooms.Join(r, v, room).cleaned == r.cleaned && Rooms.Leave(r, v, room).cleaned == r.cleaned
  {}

  lemma PerformMoves(s: State, e: Event)
    requires Standing(s) && Enabled(s, e)
    ensures Moves(s, Perform(s, e))
  {
    hide Standing, Moves, Resume, RunTask, AuthenticateCall, Cancel, MarkDisconnected, TeardownAll, Rooms.Join, Rooms.Leave;
    StillMoves(s, s);
    match e {
      case Connect(c) => ConnectMoves(s, c);
      case Disconnect(c) =>
        CancelMoves(s, c);
        if s.clients[c].connected {
          MarkMoves(s, c);
          StillMoves(MarkDisconnected(s, c), Perform(s, e));
          MovesTrans(s, MarkDisconnected(s, c), Perform(s, e));
        }
      case CloseSpace(space, order) =>
        TeardownAllSameAttempts(s.(closed := s.closed + {space}), order);
        StillMoves(s, Perform(s, e));
      case Authenticate(a) => AuthenticateMoves(s, a);
      case Complete(a, failed, encodes) =>
        FlagMoves(s, a, failed && !encodes);
        var q := SetAttempt(s, a, s.attempts[a].(completed := true, mute := failed && !encodes));
        StillMoves(q, Enqueue(q, DoneTask(a, failed)));
        MovesTrans(s, q, Enqueue(q, DoneTask(a, failed)));
      case JoinRoom(v, room) => JoinKeepsCleaned(s.rooms, v, room); StillMoves(s, Perform(s, e));
      case LeaveRoom(v, room) => JoinKeepsCleaned(s.rooms, v, room); StillMoves(s, Perform(s, e));
      case Return(encodes) => FrameMoves(s, encodes);
      case Microtask => TaskMoves(s);
      case _ => StillMoves(s, Perform(s, e));
    }
  }

  lemma ConnectMoves(s: State, c: nat)
    requires c < |s.clients|
    ensures Moves(s, ConnectCall(s, c))
  {}

  lemma FrameMoves(s: State, encodes: bool)
    requires Standing(s) && s.stack != []
    ensures Moves(s, Resume(s.(stack := s.stack[1..]), s.stack[0], encodes))
  {
    hide Standing, Resume, Moves;
    var p := s.(stack := s.stack[1..]);
    SameStandingKeeps(s, p);
    ResumeMoves(p, s.stack[0], encodes);
    StillMoves(s, p);
    MovesTrans(s, p, Resume(p, s.stack[0], encodes));
  }

  lemma TaskMoves(s: State)
    requires Standing(s) && s.tasks != []
    ensures Moves(s, RunTask(s.(tasks := s.tasks[1..]), s.tasks[0]))
  {
    hide Standing, RunTask, Moves;
    var p := s.(tasks := s.tasks[1..]);
    SameStandingKeeps(s, p);
    RunTaskMoves(p, s.tasks[0]);
    StillMoves(s, p);
    MovesTrans(s, p, RunTask(p, s.tasks[0]));
  }

  // Reports are made once.

  ghost predicate Fresh(log: seq<Observation>, o: Observation) {
    forall p :: p in log ==> !Same(p, o)
  }

  ghost predicate LogStep(log: seq<Observation>, next: seq<Observation>) {
    next == log || exists o :: next == log + [o] && Fresh(log, o)
  }

  lemma LogStepKeepsOnce(log: seq<Observation>, next: seq<Observation>)
    requires Once(log) && LogStep(log, next)
    ensures Once(next)
  {
    if next != log {
      var o :| next == log + [o] && Fresh(log, o);
    }
  }

  lemma FreshLeaving(log: seq<Observation>, v: nat, rooms: set<Rooms.Room>)
    ensures !Leaving(log, v) ==> Fresh(log, ServerDisconnecting(v, rooms))
    ensures !Left(log, v) ==> Fresh(log, ServerDisconnect(v, rooms))
  {
    forall p | p in log && p.ServerDisconnecting? && p.server == v ensures Leaving(log, v) {
      assert ServerDisconnecting(v, p.rooms) in log;
    }
    forall p | p in log && p.ServerDisconnect? && p.server == v ensures Left(log, v) {
      assert ServerDisconnect(v, p.rooms) in log;
    }
  }

  lemma FreshAttempt(log: seq<Observation>, a: nat)
    ensures ServerConnection(a) !in log ==> Fresh(log, ServerConnection(a))
    ensures ClientConnect(a) !in log ==> Fresh(log, ClientConnect(a))
    ensures ClientError(a) !in log ==> Fresh(log, ClientError(a))
  {}

  lemma NotTornNotLeaving(s: State, v: nat)
    requires Protocol(s) && v < |s.servers|
    ensures !s.servers[v].torn ==> !Leaving(s.log, v)
    ensures TeardownTask(v) in s.tasks ==> !Leaving(s.log, v)
  {
    hide Leaving, Left;
  }

  lemma ServerDisconnectLog(s: State, v: nat)
    requires Protocol(s) && v < |s.servers|
    ensures LogStep(s.log, ServerDisconnectCall(s, v).log)
  {
    hide Protocol, Fresh;
    NotTornNotLeaving(s, v);
    if !s.servers[v].torn {
      var o := ServerDisconnecting(v, Rooms.View(s.rooms, v));
      FreshLeaving(s.log, v, o.rooms);
      assert ServerDisconnectCall(s, v).log == s.log + [o];
    }
  }

  lemma GroupNextLog(s: State, order: seq<nat>, next: nat, v: nat)
    requires Protocol(s) && v < |s.servers|
    ensures LogStep(s.log, GroupNext(s, order, next, v).log)
  {
    hide Protocol, LogStep, CancelOthers, ServerDisconnectCall, Still;
    UniqueOf(s);
    SameLog(s.log);
    if next < |order| {
      var q := Push(s, Group(order, next + 1, v));
      PushStill(s, Group(order, next + 1, v));
      StillKeeps(s, q);
      var c := order[next];
      if c < |s.clients| && s.clients[c].connected && s.clients[c].server.Some?
         && s.clients[c].server.value < |s.servers|
      {
        ServerDisconnectLog(q, s.clients[c].server.value);
      }
    } else {
      var q := CancelOthers(s, 0, ManagerOf(s, v), v);
      CancelOthersStill(s, 0, ManagerOf(s, v), v);
      StillKeeps(s, q);
      ServerDisconnectLog(q, v);
    }
  }

  lemma SameLog(log: seq<Observation>)
    ensures LogStep(log, log)
  {}

  lemma AppendLog(log: seq<Observation>, o: Observation)
    requires Fresh(log, o)
    ensures LogStep(log, log + [o])
  {}

  lemma CleanEndLog(s: State, v: nat, sync: bool)
    requires Protocol(s) && s.stack != [] && s.stack[0] == CleanEnd(v, sync)
    ensures !Left(s.log, v)
  {
    hide Leaving, Left;
    assert s.stack[0] in s.stack;
    assert InClean(s.stack, v);
  }

  lemma FlushingLog(s: State, a: nat)
    requires Outcomes(s) && s.stack != [] && s.stack[0] == Flushing(a)
    ensures ClientConnect(a) !in s.log
  {
    assert s.stack[0] in s.stack;
  }

  lemma ReturnLog(s: State, encodes: bool)
    requires Protocol(s) && Outcomes(s) && s.stack != []
    ensures LogStep(s.log, Resume(s.(stack := s.stack[1..]), s.stack[0], encodes).log)
  {
    hide Protocol, Outcomes, LogStep, Fresh, GroupNext, Still, DiscardOf;
    SameLog(s.log);
    UniqueOf(s);
    var p := s.(stack := s.stack[1..]);
    match s.stack[0] {
      case AfterConnection(a) => DiscardLog(p, a);
      case Flushing(a) =>
        FlushingLog(s, a);
        FreshAttempt(s.log, a);
        AppendLog(s.log, ClientConnect(a));
      case CleanEnd(v, sync) =>
        CleanEndLog(s, v, sync);
        var rooms := Rooms.View(Rooms.CleanEnd(s.rooms, v), v);
        FreshLeaving(s.log, v, rooms);
        AppendLog(s.log, ServerDisconnect(v, rooms));
      case Group(order, next, v) =>
        if v < |s.servers| {
          PopFrameStill(s);
          StillKeeps(s, p);
          GroupNextLog(p, order, next, v);
        }
      case _ =>
    }
  }

  lemma DiscardLog(s: State, a: nat)
    ensures CompleteAttempt(s, a).log == s.log
    ensures a < |s.attempts| ==> DiscardOf(s, s.attempts[a].server).log == s.log
    ensures Reject(s, a, true).log == s.log == Reject(s, a, false).log
  {}

  lemma TaskHeadLog(s: State)
    requires Protocol(s) && Outcomes(s) && s.tasks != []
    ensures match s.tasks[0]
            case DoneTask(a, _) => ServerConnection(a) !in s.log
            case ErrorTask(a) => ClientError(a) !in s.log
            case TeardownTask(v) => !Leaving(s.log, v)
            case _ => true
  {
    hide Leaving, Left;
    assert s.tasks[0] in s.tasks;
  }

  lemma MicrotaskLog(s: State)
    requires Protocol(s) && Outcomes(s) && s.tasks != []
    ensures LogStep(s.log, RunTask(s.(tasks := s.tasks[1..]), s.tasks[0]).log)
  {
    hide Protocol, Outcomes, LogStep, Fresh, DiscardOf, Reject;
    SameLog(s.log);
    TaskHeadLog(s);
    var p := s.(tasks := s.tasks[1..]);
    match s.tasks[0] {
      case PairTask(a) => DiscardLog(p, a);
      case DoneTask(a, failed) =>
        DiscardLog(p, a);
        FreshAttempt(s.log, a);
        AppendLog(s.log, ServerConnection(a));
      case ErrorTask(a) =>
        FreshAttempt(s.log, a);
        AppendLog(s.log, ClientError(a));
      case TeardownTask(v) =>
        FreshLeaving(s.log, v, Rooms.View(s.rooms, v));
        AppendLog(s.log, ServerDisconnecting(v, Rooms.View(s.rooms, v)));
      case _ =>
    }
  }

  lemma PerformLog(s: State, e: Event)
    requires Protocol(s) && Outcomes(s) && Enabled(s, e)
    ensures LogStep(s.log, Perform(s, e).log)
  {
    hide Protocol, Outcomes, LogStep, Fresh, Resume, RunTask, Reject, ServerDisconnectCall, TeardownAll, Rooms.Cleanup,
         Current, Superseded, Guard;
    SameLog(s.log);
    match e {
      case DisconnectServer(v) => ServerDisconnectLog(s, v);
      case CloseSpace(space, order) => TeardownAllSameAttempts(s.(closed := s.closed + {space}), order);
      case Authenticate(a) => DiscardLog(s, a);
      case Deliver(i) => DeliverLog(s, i);
      case Return(encodes) => ReturnLog(s, encodes);
      case Microtask => MicrotaskLog(s);
      case _ =>
    }
  }

  lemma DeliverLog(s: State, i: nat)
    requires i < |s.packets|
    ensures LogStep(s.log, DeliverCall(s, i).log)
  {
    var p := s.packets[i];
    if p.via < |s.servers| && s.servers[p.via].client < |s.clients| && Guard(s, p) {
      var o := Arrival(s, p);
      assert DeliverCall(s, i).log == s.log + [o];
    }
  }

  // The invariant of every run.

  ghost predicate Inv(s: State) {
    && Standing(s) && Outcomes(s) && Protocol(s) && Membership(s) && Once(s.log) && LetGo(s)
  }

  /** No adapter is draining anything unless a callback is under way. */
  lemma NothingDrained(s: State)
    requires Inv(s) && s.stack == []
    ensures s.rooms.draining == {}
  {
    hide Standing, Outcomes, Protocol, Once, LetGo, Rooms.Coherent, LeftRooms, FramesInRange, RoomsInRange;
  }

  lemma InitialInv(s: State)
    requires Initial(s)
    ensures Inv(s)
  {
    Rooms.EmptyIsCoherent();
    assert forall c :: 0 <= c < |s.clients| ==> ClientAgrees(s.clients, s.attempts, s.pending, s.connected, c);
  }

  lemma FrameFacts(s: State)
    requires Outcomes(s) && Membership(s)
    ensures AdmittedFrames(s.attempts, s.stack) && FramesInRange(s.stack, |s.clients|, |s.servers|)
    ensures s.stack != [] && s.stack[0].Ended? ==> s.stack[0].server < |s.servers|
  {
    hide Rooms.Coherent, LeftRooms, DrainFrames;
    if s.stack != [] { assert s.stack[0] in s.stack; }
  }

  lemma StepInv(s: State, e: Event)
    requires Inv(s)
    ensures Inv(Step(s, e)) && Moves(s, Step(s, e))
  {
    hide Standing, Outcomes, Protocol, Membership, Once, LetGo, Moves, LogStep, Perform, AdmittedFrames, FramesInRange;
    StillMoves(s, s);
    if Enabled(s, e) {
      FrameFacts(s);
      PerformStanding(s, e);
      PerformOutcomes(s, e);
      PerformProtocol(s, e);
      PerformMembership(s, e);
      PerformMoves(s, e);
      MovesKeepLetGo(s, Perform(s, e));
      PerformLog(s, e);
      LogStepKeepsOnce(s.log, Perform(s, e).log);
    }
  }

  lemma {:induction false} RunInv(s: State, events: seq<Event>)
    requires Inv(s)
    ensures Inv(Run(s, events)) && Moves(s, Run(s, events))
    decreases |events|
  {
    hide Inv, Moves, Step;
    StillMoves(s, s);
    if events != [] {
      StepInv(s, events[0]);
      RunInv(Step(s, events[0]), events[1..]);
      MovesTrans(s, Step(s, events[0]), Run(Step(s, events[0]), events[1..]));
    }
  }
}
