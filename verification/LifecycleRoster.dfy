/**
  The roster of a namespace: exactly the sockets that were admitted and whose cleanup is not
  over. Registration is the only way in, and the end of the cleanup the only way out.
 */
module LifecycleRoster {
  import opened Common
  import Rooms
  import opened Lifecycle
  import opened LifecycleStanding
  import opened LifecycleOutcomes
  import opened LifecycleTeardown
  import opened LifecycleMembership
  import opened LifecycleRuns
  import opened LifecycleHandover
  import opened LifecycleHandoverFrames
  import opened LifecycleHandoverRuns

  /** The server has announced the attempt this socket belongs to. */
  ghost predicate WasAdmitted(attempts: seq<Attempt>, log: seq<Observation>, v: nat) {
    exists a: nat :: a < |attempts| && attempts[a].server == Some(v) && ServerConnection(a) in log
  }

  ghost predicate RosterKept(s: State) {
    && (forall v: nat :: v in s.rooms.roster ==> WasAdmitted(s.attempts, s.log, v))
    && (forall v: nat :: WasAdmitted(s.attempts, s.log, v) && Lingering(s.rooms, v) ==> v in s.rooms.roster)
  }

  /**
    Only the end of its cleanup takes a socket off the roster, together with that cleanup;
    a socket that is on the roster although it was cleaned before is never taken off.
   */
  ghost predicate RoomsMove(r: Rooms.State, q: Rooms.State) {
    && q.roster <= r.roster
    && (forall v: nat :: v in r.roster && (Lingering(q, v) || !Lingering(r, v)) ==> v in q.roster)
    && (forall v: nat :: v in q.roster && Lingering(r, v) ==> Lingering(q, v))
    && (forall v: nat :: Lingering(q, v) ==> Lingering(r, v))
  }

  lemma RoomsMoveTrans(r: Rooms.State, q: Rooms.State, t: Rooms.State)
    requires RoomsMove(r, q) && RoomsMove(q, t)
    ensures RoomsMove(r, t)
  {
    hide Lingering;
  }

  lemma RoomsMoveSelf(r: Rooms.State)
    ensures RoomsMove(r, r)
  {}

  /** No admission happens. */
  ghost predicate NoneAdmitted(s: State, q: State) {
    && RoomsMove(s.rooms, q.rooms)
    && (forall a: nat :: ServerConnection(a) in q.log <==> ServerConnection(a) in s.log)
  }

  lemma NoneAdmittedKeeps(s: State, q: State)
    requires Inv(s) && Inv(q) && Moves(s, q) && NoneAdmitted(s, q) && RosterKept(s)
    ensures RosterKept(q)
  {
    hide Protocol, Membership, Once, LetGo, Agreed, OwnServers, TasksMatch, TasksDistinct, TasksInRange, Lingering;
    forall v: nat ensures WasAdmitted(q.attempts, q.log, v) <==> WasAdmitted(s.attempts, s.log, v) {
      SameAdmitted(s, q, v);
    }
  }

  lemma SameAdmitted(s: State, q: State, v: nat)
    requires Inv(s) && Inv(q) && Moves(s, q)
    requires forall a: nat :: ServerConnection(a) in q.log <==> ServerConnection(a) in s.log
    ensures WasAdmitted(q.attempts, q.log, v) <==> WasAdmitted(s.attempts, s.log, v)
  {
    hide Protocol, Membership, Once, LetGo, Agreed, OwnServers, Linked, TasksMatch, TasksDistinct, TasksInRange, Lingering;
    forall a: nat | ServerConnection(a) in s.log
      ensures a < |s.attempts| && a < |q.attempts| && q.attempts[a].server == s.attempts[a].server
    {
      assert AttemptMoves(s.attempts[a], q.attempts[a]);
    }
  }

  // The rooms along each step.

  lemma CleanupMove(r: Rooms.State, v: nat)
    requires Rooms.Coherent(r)
    ensures RoomsMove(r, Rooms.Cleanup(r, v))
  {
    hide Rooms.NoEmptyRoom, Rooms.Mirrored, Rooms.Viewed;
  }

  lemma StageMove(r: Rooms.State, v: nat)
    ensures RoomsMove(r, Rooms.CleanBegin(r, v))
    ensures v in r.cleaned ==> RoomsMove(r, Rooms.CleanEnd(r, v))
  {}

  lemma JoinMove(r: Rooms.State, v: nat, room: Rooms.Room)
    ensures RoomsMove(r, Rooms.Join(r, v, room)) && RoomsMove(r, Rooms.Leave(r, v, room))
  {}

  lemma CancelMove(s: State, c: nat)
    requires Rooms.Coherent(s.rooms) && c < |s.clients|
    ensures RoomsMove(s.rooms, Cancel(s, c).rooms)
  {
    hide Rooms.Coherent, Rooms.Cleanup, RoomsMove;
    RoomsMoveSelf(s.rooms);
    forall v: nat ensures RoomsMove(s.rooms, Rooms.Cleanup(s.rooms, v)) { CleanupMove(s.rooms, v); }
  }

  lemma RejectMove(s: State, a: nat, encodes: bool)
    requires Rooms.Coherent(s.rooms)
    ensures RoomsMove(s.rooms, Reject(s, a, encodes).rooms) && Reject(s, a, encodes).log == s.log
  {
    hide Rooms.Coherent, Rooms.Cleanup, RoomsMove;
    RoomsMoveSelf(s.rooms);
    forall v: nat ensures RoomsMove(s.rooms, Rooms.Cleanup(s.rooms, v)) { CleanupMove(s.rooms, v); }
  }

  lemma DiscardMove(s: State, v: Option<nat>)
    requires Rooms.Coherent(s.rooms)
    ensures RoomsMove(s.rooms, DiscardOf(s, v).rooms) && DiscardOf(s, v).log == s.log
  {
    hide Rooms.Coherent, Rooms.Cleanup, RoomsMove;
    RoomsMoveSelf(s.rooms);
    if v.Some? { CleanupMove(s.rooms, v.value); }
  }

  lemma CoherentRooms(s: State)
    requires Inv(s)
    ensures Rooms.Coherent(s.rooms)
  {
    hide Standing, Outcomes, Protocol, Once, LetGo;
  }

  lemma {:induction false} CancelOthersMove(s: State, i: nat, manager: nat, v: nat)
    requires Inv(s)
    ensures RoomsMove(s.rooms, CancelOthers(s, i, manager, v).rooms) && CancelOthers(s, i, manager, v).log == s.log
    decreases |s.clients| - i
  {
    hide Inv, RoomsMove, Rooms.Coherent;
    RoomsMoveSelf(s.rooms);
    if i < |s.clients| {
      var q := if i in s.pending && s.clients[i].manager == manager && !Owns(s, i, v) then Cancel(s, i) else s;
      CoherentRooms(s);
      CancelMove(s, i);
      CancelInv(s, i);
      CancelLog(s, i);
      CancelOthersMove(q, i + 1, manager, v);
      RoomsMoveTrans(s.rooms, q.rooms, CancelOthers(q, i + 1, manager, v).rooms);
    }
  }

  lemma CancelLog(s: State, c: nat)
    requires c < |s.clients|
    ensures Cancel(s, c).log == s.log
  {}

  lemma GroupNextNone(s: State, order: seq<nat>, next: nat, v: nat)
    requires Inv(s) && v < |s.servers| && s.stack != [] && s.stack[0] == Group(order, next, v)
    ensures NoneAdmitted(s, GroupNext(s.(stack := s.stack[1..]), order, next, v))
  {
    hide CancelOthers, RoomsMove, Inv;
    var p := s.(stack := s.stack[1..]);
    RoomsMoveSelf(s.rooms);
    var m := ManagerOf(p, v);
    CancelOthersMove(s, 0, m, v);
    CancelOthersStack(s, 0, m, v, s.stack[1..]);
  }

  lemma CompleteNone(s: State, a: nat)
    requires Rooms.Coherent(s.rooms)
    ensures NoneAdmitted(s, CompleteAttempt(s, a))
  {
    hide RoomsMove, DiscardOf, Rooms.Coherent;
    RoomsMoveSelf(s.rooms);
    if a < |s.attempts| { DiscardMove(s, s.attempts[a].server); }
  }

  lemma CleanNone(s: State, v: nat, sync: bool)
    ensures v < |s.servers| ==> NoneAdmitted(s, CleanResume(s, v, sync))
    ensures v in s.rooms.cleaned ==> NoneAdmitted(s, CleanEndResume(s, v, sync))
  {
    hide RoomsMove, Rooms.CleanBegin, Rooms.CleanEnd;
    StageMove(s.rooms, v);
  }

  lemma PlainNone(s: State, f: Frame, encodes: bool)
    requires f.Flushing? || f.Ended? || f.Sending? || f.Tail? || f.Broadcasting?
    ensures NoneAdmitted(s, Resume(s, f, encodes))
  {
    hide RoomsMove, TailResume, BroadcastingResume;
    RoomsMoveSelf(s.rooms);
    if f.Tail? { TailLog(s, f.client); }
    if f.Broadcasting? { BroadcastingLog(s, f.order); }
  }

  lemma ResumeNone(s: State, encodes: bool)
    requires Inv(s) && s.stack != []
    ensures NoneAdmitted(s, Resume(s.(stack := s.stack[1..]), s.stack[0], encodes))
  {
    CoherentRooms(s);
    HeadCleanedOf(s);
    RoomsMoveSelf(s.rooms);
    hide Inv, RoomsMove, Rooms.Coherent, GroupNext, CompleteAttempt, CleanResume, CleanEndResume;
    var p := s.(stack := s.stack[1..]);
    var f := s.stack[0];
    if f.AfterConnection? {
      CompleteNone(p, f.attempt);
    } else if f.Clean? || f.CleanEnd? {
      CleanNone(p, f.server, f.sync);
    } else if f.Group? {
      if f.initiator < |s.servers| { GroupNextNone(s, f.order, f.next, f.initiator); }
    } else {
      hide Resume;
      PlainNone(p, f, encodes);
    }
  }

  lemma TailLog(s: State, c: nat)
    ensures TailResume(s, c).log == s.log && TailResume(s, c).rooms == s.rooms
  {}

  lemma BroadcastingLog(s: State, order: seq<nat>)
    ensures BroadcastingResume(s, order).log == s.log && BroadcastingResume(s, order).rooms == s.rooms
  {}

  lemma HeadCleanedOf(s: State)
    requires Inv(s) && s.stack != []
    ensures s.stack[0].CleanEnd? ==> s.stack[0].server in s.rooms.cleaned
  {
    if s.stack[0].CleanEnd? { HeadCleaned(s); }
  }

  lemma DisconnectNone(s: State, c: nat)
    requires Rooms.Coherent(s.rooms) && c < |s.clients|
    ensures NoneAdmitted(s, DisconnectCall(s, c))
  {
    hide Rooms.Coherent, RoomsMove, Cancel;
    RoomsMoveSelf(s.rooms);
    CancelMove(s, c);
    CancelLog(s, c);
  }

  lemma AuthenticateNone(s: State, a: nat)
    requires Rooms.Coherent(s.rooms) && Enabled(s, Authenticate(a))
    ensures NoneAdmitted(s, AuthenticateCall(s, a))
  {
    hide RoomsMove, Rooms.Coherent, Reject, Rooms.Cleanup;
    RoomsMoveSelf(s.rooms);
    RejectMove(s, a, true);
    CleanupMove(s.rooms, |s.servers|);
  }

  lemma CallNone(s: State, e: Event)
    requires Inv(s) && Enabled(s, e) && !e.Return? && !e.Microtask?
    ensures NoneAdmitted(s, Perform(s, e))
  {
    CoherentRooms(s);
    hide Inv, RoomsMove, Rooms.Coherent, Cancel, Reject, TeardownAll, Rooms.Join, Rooms.Leave, Rooms.Cleanup, Guard, Superseded, Current;
    RoomsMoveSelf(s.rooms);
    match e {
      case Disconnect(c) => DisconnectNone(s, c);
      case CloseSpace(space, order) => TeardownAllSameAttempts(s.(closed := s.closed + {space}), order);
      case Authenticate(a) => AuthenticateNone(s, a);
      case JoinRoom(v, room) => JoinMove(s.rooms, v, room);
      case LeaveRoom(v, room) => JoinMove(s.rooms, v, room);
      case _ => hide AuthenticateCall, DisconnectCall, CloseCall;
    }
  }

  /** Microtasks other than an admission. */
  lemma TaskNone(s: State, t: Task)
    requires Rooms.Coherent(s.rooms)
    requires t.DoneTask? ==> t.failed || !IsPending(s, t.attempt) || SpaceClosed(s, t.attempt)
                             || s.attempts[t.attempt].server == None
    ensures NoneAdmitted(s, RunTask(s, t))
  {
    hide RoomsMove, Rooms.Coherent, Reject, DiscardOf;
    RoomsMoveSelf(s.rooms);
    match t {
      case PairTask(a) => RejectMove(s, a, true);
      case DoneTask(a, failed) =>
        RejectMove(s, a, true);
        RejectMove(s, a, false);
        if a < |s.attempts| { DiscardMove(s, s.attempts[a].server); }
      case _ =>
    }
  }

  lemma AdmitRoster(s: State, a: nat, v: nat)
    requires RosterKept(s) && v < |s.servers| && a < |s.attempts| && s.attempts[a].server == Some(v)
    ensures RosterKept(Admit(s, a, v))
  {
    AdmitRooms(s.rooms, v);
    var q := Admit(s, a, v);
    forall w: nat ensures WasAdmitted(q.attempts, q.log, w) <==> WasAdmitted(s.attempts, s.log, w) || w == v {
      AdmittedAfter(s, q, a, v, w);
    }
    hide WasAdmitted, Rooms.Join, Rooms.Register;
  }

  lemma AdmittedAfter(s: State, q: State, a: nat, v: nat, w: nat)
    requires a < |s.attempts| && s.attempts[a].server == Some(v) && q.attempts == s.attempts && q.log == s.log + [ServerConnection(a)]
    ensures WasAdmitted(q.attempts, q.log, w) <==> WasAdmitted(s.attempts, s.log, w) || w == v
  {
    forall b: nat ensures ServerConnection(b) in q.log <==> ServerConnection(b) in s.log || b == a {}
    if WasAdmitted(s.attempts, s.log, w) {
      var b: nat :| b < |s.attempts| && s.attempts[b].server == Some(w) && ServerConnection(b) in s.log;
      assert ServerConnection(b) in q.log;
    }
    if w == v { assert ServerConnection(a) in q.log; }
  }

  lemma SameRoster(s: State, q: State)
    requires RosterKept(s) && q.rooms == s.rooms && q.attempts == s.attempts && q.log == s.log
    ensures RosterKept(q)
  {}

  lemma MicrotaskRoster(s: State)
    requires RosterKept(s) && Inv(s) && s.stack == [] && s.tasks != []
    requires Inv(Step(s, Microtask)) && Moves(s, Step(s, Microtask))
    ensures RosterKept(Step(s, Microtask))
  {
    CoherentRooms(s);
    hide Inv, Moves, RosterKept, Rooms.Coherent, Admit, Reject, DiscardOf, NoneAdmitted;
    var p := s.(tasks := s.tasks[1..]);
    var t := s.tasks[0];
    SameRoster(s, p);
    if t.DoneTask? && !t.failed && IsPending(p, t.attempt) && !SpaceClosed(p, t.attempt) && p.attempts[t.attempt].server.Some? {
      AttachedInRange(s, t.attempt);
      AdmitRoster(p, t.attempt, p.attempts[t.attempt].server.value);
    } else {
      hide RunTask;
      TaskNone(p, t);
      SameNone(s, p, RunTask(p, t));
      NoneAdmittedKeeps(s, RunTask(p, t));
    }
  }

  lemma SameNone(s: State, p: State, q: State)
    requires p.rooms == s.rooms && p.log == s.log && NoneAdmitted(p, q)
    ensures NoneAdmitted(s, q)
  {}

  lemma AttachedInRange(s: State, a: nat)
    requires Inv(s) && a < |s.attempts| && s.attempts[a].server.Some?
    ensures s.attempts[a].server.value < |s.servers|
  {
    hide Outcomes, Protocol, Membership, Once, LetGo, Agreed;
  }

  lemma StepRoster(s: State, e: Event)
    requires RosterKept(s) && Inv(s)
    ensures RosterKept(Step(s, e))
  {
    hide Inv, RosterKept, Moves, NoneAdmitted, Resume, RunTask;
    StepInv(s, e);
    if Enabled(s, e) {
      match e {
        case Return(encodes) => ResumeNone(s, encodes); NoneAdmittedKeeps(s, Step(s, e));
        case Microtask => MicrotaskRoster(s);
        case _ => CallNone(s, e); NoneAdmittedKeeps(s, Step(s, e));
      }
    }
  }

  lemma {:induction false} RunRoster(s: State, events: seq<Event>)
    requires RosterKept(s) && Inv(s)
    ensures RosterKept(Run(s, events))
    decreases |events|
  {
    hide Inv, RosterKept, Step;
    if events != [] {
      StepRoster(s, events[0]);
      StepInv(s, events[0]);
      RunRoster(Step(s, events[0]), events[1..]);
    }
  }

  // Sockets on the roster although they have been cleaned.

  /** The step registers a socket whose cleanup is over: `namespaces.ts` does not ask for it. */
  predicate AdmitsCleaned(s: State, e: Event) {
    && e.Microtask? && s.stack == [] && s.tasks != []
    && s.tasks[0].DoneTask? && !s.tasks[0].failed
    && var a := s.tasks[0].attempt;
       && IsPending(s, a) && !SpaceClosed(s, a)
       && s.attempts[a].server.Some? && s.attempts[a].server.value in s.rooms.cleaned
  }

  ghost predicate NeverAdmitsCleaned(s: State, events: seq<Event>)
    decreases |events|
  {
    events == [] || (!AdmitsCleaned(s, events[0]) && NeverAdmitsCleaned(Step(s, events[0]), events[1..]))
  }

  lemma NoneAdmittedLive(s: State, q: State)
    requires NoneAdmitted(s, q)
    ensures RosterLive(q.rooms) <==> RosterLive(s.rooms)
  {
    hide Lingering;
  }

  lemma AdmitLive(s: State, a: nat, v: nat)
    requires v < |s.servers| && s.rooms.draining == {}
    ensures RosterLive(Admit(s, a, v).rooms) <==> RosterLive(s.rooms) && v !in s.rooms.cleaned
  {
    AdmitRooms(s.rooms, v);
    hide Rooms.Join, Rooms.Register;
  }

  lemma MicrotaskLive(s: State)
    requires Inv(s) && s.stack == [] && s.tasks != []
    ensures RosterLive(Step(s, Microtask).rooms) <==> RosterLive(s.rooms) && !AdmitsCleaned(s, Microtask)
  {
    CoherentRooms(s);
    NothingDrained(s);
    hide Inv, RosterLive, Rooms.Coherent, Admit, Reject, DiscardOf, NoneAdmitted;
    var p := s.(tasks := s.tasks[1..]);
    var t := s.tasks[0];
    if t.DoneTask? && !t.failed && IsPending(p, t.attempt) && !SpaceClosed(p, t.attempt) && p.attempts[t.attempt].server.Some? {
      AttachedInRange(s, t.attempt);
      AdmitLive(p, t.attempt, p.attempts[t.attempt].server.value);
    } else {
      hide RunTask;
      TaskNone(p, t);
      NoneAdmittedLive(p, RunTask(p, t));
    }
  }

  lemma StepLive(s: State, e: Event)
    requires Inv(s)
    ensures RosterLive(Step(s, e).rooms) <==> RosterLive(s.rooms) && !AdmitsCleaned(s, e)
  {
    hide Inv, RosterLive, NoneAdmitted, Resume, RunTask;
    if Enabled(s, e) {
      match e {
        case Return(encodes) => ResumeNone(s, encodes); NoneAdmittedLive(s, Step(s, e));
        case Microtask => MicrotaskLive(s);
        case _ => CallNone(s, e); NoneAdmittedLive(s, Step(s, e));
      }
    }
  }

  lemma {:induction false} RunLive(s: State, events: seq<Event>)
    requires Inv(s)
    ensures RosterLive(Run(s, events).rooms) <==> RosterLive(s.rooms) && NeverAdmitsCleaned(s, events)
    decreases |events|
  {
    hide Inv, RosterLive, Step, AdmitsCleaned;
    if events != [] {
      StepLive(s, events[0]);
      StepInv(s, events[0]);
      RunLive(Step(s, events[0]), events[1..]);
    }
  }
}
