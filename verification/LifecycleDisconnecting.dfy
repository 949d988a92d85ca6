/**
  What `disconnecting` reports, whichever step reports it: a call by the application, the microtask
  of a teardown, or a group operation that has just cancelled other clients' attempts.
 */
module LifecycleDisconnecting {
  import opened Common
  import Rooms
  import opened Lifecycle
  import opened LifecycleStanding
  import opened LifecycleOutcomes
  import opened LifecycleTeardown
  import opened LifecycleMembership
  import opened LifecycleRuns

  /** A socket is inactive only once it is torn or cleaned. */
  ghost predicate Rested(s: State) {
    forall v :: 0 <= v < |s.servers| && !s.servers[v].active ==> s.servers[v].torn || v in s.rooms.cleaned
  }

  ghost predicate Rests(s: State, q: State) {
    && |s.servers| <= |q.servers| && s.rooms.cleaned <= q.rooms.cleaned
    && (forall v :: 0 <= v < |s.servers| && s.servers[v].torn ==> q.servers[v].torn)
    && (forall v :: 0 <= v < |q.servers| && !q.servers[v].active ==>
          q.servers[v].torn || v in q.rooms.cleaned || (v < |s.servers| && !s.servers[v].active))
  }

  lemma RestsKeeps(s: State, q: State)
    requires Rested(s) && Rests(s, q)
    ensures Rested(q)
  {}

  lemma RestsTrans(s: State, p: State, q: State)
    requires Rests(s, p) && Rests(p, q)
    ensures Rests(s, q)
  {}

  lemma SameRests(s: State, q: State)
    requires q.servers == s.servers && s.rooms.cleaned <= q.rooms.cleaned
    ensures Rests(s, q)
  {}

  lemma DiscardRests(s: State, v: Option<nat>)
    ensures Rests(s, DiscardOf(s, v))
  {
    if v.Some? { CleanupCleans(s.rooms, v.value); }
    hide Rooms.Cleanup;
  }

  lemma AbandonRests(s: State, a: nat, phase: Phase)
    requires IsPending(s, a)
    ensures Rests(s, Abandon(s, a, phase))
  {
    var c := s.attempts[a].client;
    var p := s.(attempts := s.attempts[a := s.attempts[a].(phase := phase)],
                clients := s.clients[c := s.clients[c].(attempt := None)], pending := s.pending - {c});
    DiscardRests(p, s.attempts[a].server);
    hide DiscardOf;
  }

  lemma CancelRests(s: State, c: nat)
    requires c < |s.clients|
    ensures Rests(s, Cancel(s, c))
  {
    hide Abandon;
    var attempt := s.clients[c].attempt;
    if attempt.Some? && IsPending(s, attempt.value) { AbandonRests(s, attempt.value, Cancelled); }
  }

  lemma RejectRests(s: State, a: nat, encodes: bool)
    ensures Rests(s, Reject(s, a, encodes))
  {
    hide Abandon;
    if IsPending(s, a) { AbandonRests(s, a, Rejected(encodes)); }
  }

  lemma {:induction false} CancelOthersRests(s: State, i: nat, manager: nat, v: nat)
    ensures Rests(s, CancelOthers(s, i, manager, v))
    decreases |s.clients| - i
  {
    hide Rests;
    SameRests(s, s);
    if i < |s.clients| {
      var q := if i in s.pending && s.clients[i].manager == manager && !Owns(s, i, v) then Cancel(s, i) else s;
      CancelRests(s, i);
      CancelOthersRests(q, i + 1, manager, v);
      RestsTrans(s, q, CancelOthers(q, i + 1, manager, v));
    }
  }

  lemma TearRests(s: State, v: nat, closing: bool)
    requires v < |s.servers|
    ensures Rests(s, Teardown(s, v, closing)) && Rests(s, ServerDisconnectCall(s, v))
  {}

  lemma {:induction false} TeardownAllRests(s: State, order: seq<nat>)
    ensures Rests(s, TeardownAll(s, order))
    decreases |order|
  {
    hide Rests, Teardown;
    SameRests(s, s);
    if order != [] {
      var q := if order[0] < |s.servers| then Teardown(s, order[0], true) else s;
      if order[0] < |s.servers| { TearRests(s, order[0], true); }
      TeardownAllRests(q, order[1..]);
      RestsTrans(s, q, TeardownAll(q, order[1..]));
    }
  }

  lemma GroupNextRests(s: State, order: seq<nat>, next: nat, v: nat)
    requires v < |s.servers|
    ensures Rests(s, GroupNext(s, order, next, v))
  {
    hide Rests, ServerDisconnectCall, CancelOthers;
    if next < |order| {
      var q := Push(s, Group(order, next + 1, v));
      SameRests(s, q);
      var c := order[next];
      if c < |s.clients| && s.clients[c].connected && s.clients[c].server.Some?
         && s.clients[c].server.value < |s.servers|
      {
        TearRests(q, s.clients[c].server.value, false);
        RestsTrans(s, q, ServerDisconnectCall(q, s.clients[c].server.value));
      }
    } else {
      var q := CancelOthers(s, 0, ManagerOf(s, v), v);
      CancelOthersRests(s, 0, ManagerOf(s, v), v);
      TearRests(q, v, false);
      RestsTrans(s, q, ServerDisconnectCall(q, v));
    }
  }

  lemma ResumeRests(s: State, f: Frame, encodes: bool)
    ensures Rests(s, Resume(s, f, encodes))
  {
    hide GroupNext, CompleteAttempt, BroadcastingResume, Rooms.CleanBegin, Rooms.CleanEnd;
    SameRests(s, s);
    match f {
      case AfterConnection(a) => CompleteRests(s, a);
      case Group(order, next, v) => if v < |s.servers| { GroupNextRests(s, order, next, v); }
      case Clean(v, sync) => CleanKeepsCleaned(s.rooms, v);
      case CleanEnd(v, sync) => CleanKeepsCleaned(s.rooms, v);
      case Broadcasting(order) => BroadcastRests(s, order);
      case _ =>
    }
  }

  lemma BroadcastRests(s: State, order: seq<nat>)
    ensures Rests(s, BroadcastingResume(s, order))
  {
    SameRests(s, BroadcastingResume(s, order));
  }

  lemma CompleteRests(s: State, a: nat)
    ensures Rests(s, CompleteAttempt(s, a))
  {
    hide DiscardOf;
    if a < |s.attempts| { DiscardRests(s, s.attempts[a].server); }
  }

  lemma RunTaskRests(s: State, t: Task)
    requires t.TeardownTask? && t.server < |s.servers| ==> s.servers[t.server].torn
    ensures Rests(s, RunTask(s, t))
  {
    hide Reject, DiscardOf, MarkDisconnected, Rooms.Join;
    SameRests(s, s);
    match t {
      case PairTask(a) => RejectRests(s, a, true);
      case DoneTask(a, failed) =>
        RejectRests(s, a, true);
        RejectRests(s, a, false);
        if a < |s.attempts| {
          DiscardRests(s, s.attempts[a].server);
          if s.attempts[a].server.Some? && s.attempts[a].server.value < |s.servers| {
            AdmitRests(s, a, s.attempts[a].server.value);
          }
        }
      case MarkTask(v) => if RunMark(s, v) != s { MarkRests(s, s.servers[v].client); }
      case CloseMarkTask(v) => if RunMark(s, v) != s { MarkRests(s, s.servers[v].client); }
      case _ =>
    }
  }

  lemma AdmitRests(s: State, a: nat, v: nat)
    requires v < |s.servers|
    ensures Rests(s, Admit(s, a, v))
  {
    JoinKeepsCleaned(Rooms.Register(s.rooms, v), v, v);
    hide Rooms.Join;
  }

  lemma MarkRests(s: State, c: nat)
    requires c < |s.clients|
    ensures Rests(s, MarkDisconnected(s, c))
  {}

  lemma AuthenticateRests(s: State, a: nat)
    requires a < |s.attempts|
    ensures Rests(s, AuthenticateCall(s, a))
  {
    RejectRests(s, a, true);
    CleanupCleans(s.rooms, |s.servers|);
    hide Reject, Rooms.Cleanup;
  }

  lemma PerformRests(s: State, e: Event)
    requires Enabled(s, e) && TasksMatch(s.attempts, s.servers, s.tasks)
    ensures Rests(s, Perform(s, e))
  {
    hide Rests, Resume, RunTask, AuthenticateCall, Cancel, MarkDisconnected, TeardownAll, ServerDisconnectCall,
         Rooms.Join, Rooms.Leave, Guard, Superseded, Current;
    SameRests(s, s);
    match e {
      case Disconnect(c) =>
        CancelRests(s, c);
        MarkRests(s, c);
        if s.clients[c].connected {
          SameRests(MarkDisconnected(s, c), Perform(s, e));
          RestsTrans(s, MarkDisconnected(s, c), Perform(s, e));
        }
      case DisconnectServer(v) => TearRests(s, v, false);
      case CloseSpace(space, order) =>
        var p := s.(closed := s.closed + {space});
        SameRests(s, p);
        TeardownAllRests(p, order);
        RestsTrans(s, p, Perform(s, e));
      case Authenticate(a) => AuthenticateRests(s, a);
      case JoinRoom(v, room) => JoinKeepsCleaned(s.rooms, v, room); SameRests(s, Perform(s, e));
      case LeaveRoom(v, room) => JoinKeepsCleaned(s.rooms, v, room); SameRests(s, Perform(s, e));
      case Return(encodes) =>
        var p := s.(stack := s.stack[1..]);
        SameRests(s, p);
        ResumeRests(p, s.stack[0], encodes);
        RestsTrans(s, p, Perform(s, e));
      case Microtask =>
        var p := s.(tasks := s.tasks[1..]);
        assert s.tasks[0] in s.tasks;
        SameRests(s, p);
        RunTaskRests(p, s.tasks[0]);
        RestsTrans(s, p, Perform(s, e));
      case _ => SameRests(s, Perform(s, e));
    }
  }

  lemma MatchedTasks(s: State)
    requires Inv(s)
    ensures TasksMatch(s.attempts, s.servers, s.tasks) && Rooms.Coherent(s.rooms) && Standing(s)
  {}

  lemma {:induction false} RunRested(s: State, events: seq<Event>)
    requires Inv(s) && Rested(s)
    ensures Rested(Run(s, events))
    decreases |events|
  {
    hide Inv, Rested, Rests, Perform;
    if events != [] {
      var q := Step(s, events[0]);
      if Enabled(s, events[0]) {
        MatchedTasks(s);
        PerformRests(s, events[0]);
        RestsKeeps(s, q);
      }
      StepInv(s, events[0]);
      RunRested(q, events[1..]);
    }
  }

  // The rooms of one socket while others are cleaned.

  /** Socket `v` is in the same rooms as before. */
  ghost predicate SameMember(r: Rooms.State, q: Rooms.State, v: nat) {
    && Rooms.View(q, v) == Rooms.View(r, v)
    && forall room :: v in Rooms.Members(q, room) <==> v in Rooms.Members(r, room)
  }

  lemma CleanupOfAnother(r: Rooms.State, w: nat, v: nat)
    requires Rooms.Coherent(r) && (w == v ==> v in r.cleaned)
    ensures SameMember(r, Rooms.Cleanup(r, w), v)
  {
    if w !in r.cleaned {
      var q := Rooms.CleanBegin(r, w);
      forall room ensures v in Rooms.Members(q, room) <==> v in Rooms.Members(r, room) {
        if v in Rooms.Members(r, room) { assert v in r.rooms[room] - {w}; }
      }
    }
  }

  lemma CancelSameMember(s: State, i: nat, v: nat)
    requires Standing(s) && Rooms.Coherent(s.rooms) && Rested(s)
    requires i < |s.clients| && v < |s.servers| && !s.servers[v].torn && !Owns(s, i, v)
    ensures SameMember(s.rooms, Cancel(s, i).rooms, v)
  {
    hide Agreed, OwnServers, Flagged, Rooms.Coherent, SameMember, Rooms.Cleanup;
    SelfMember(s.rooms, v);
    var attempt := s.clients[i].attempt;
    if attempt.Some? && IsPending(s, attempt.value) && s.attempts[attempt.value].server.Some? {
      CleanupOfAnother(s.rooms, s.attempts[attempt.value].server.value, v);
    }
  }

  lemma SelfMember(r: Rooms.State, v: nat)
    ensures SameMember(r, r, v)
  {}

  lemma MemberTrans(r: Rooms.State, p: Rooms.State, q: Rooms.State, v: nat)
    requires SameMember(r, p, v) && SameMember(p, q, v)
    ensures SameMember(r, q, v)
  {}

  lemma CancelFacts(s: State, i: nat, v: nat)
    requires Standing(s) && Rooms.Coherent(s.rooms) && Rested(s) && i < |s.clients| && v < |s.servers|
    ensures var q := Cancel(s, i);
            Standing(q) && Rooms.Coherent(q.rooms) && Rested(q) && |q.servers| == |s.servers| && |q.clients| == |s.clients|
            && q.servers[v].torn == s.servers[v].torn && q.log == s.log
  {
    CancelStanding(s, i);
    CancelRests(s, i);
    RestsKeeps(s, Cancel(s, i));
    CancelShape(s, i, v);
    hide Standing, Rests, Rested, Rooms.Coherent, Cancel;
  }

  lemma CancelShape(s: State, i: nat, v: nat)
    requires Rooms.Coherent(s.rooms) && i < |s.clients| && v < |s.servers|
    ensures var q := Cancel(s, i);
            Rooms.Coherent(q.rooms) && |q.servers| == |s.servers| && |q.clients| == |s.clients|
            && q.servers[v].torn == s.servers[v].torn && q.log == s.log
  {
    hide Rooms.Coherent, Rooms.Cleanup;
    forall w: nat ensures Rooms.Coherent(Rooms.Cleanup(s.rooms, w)) { CleanupCoherent(s.rooms, w); }
  }

  lemma CleanupCoherent(r: Rooms.State, w: nat)
    requires Rooms.Coherent(r)
    ensures Rooms.Coherent(Rooms.Cleanup(r, w))
  {
    hide Rooms.Coherent;
    if w !in r.cleaned { Rooms.CleanupRemoves(r, w); }
  }

  lemma {:induction false} CancelOthersSameMember(s: State, i: nat, manager: nat, v: nat)
    requires Standing(s) && Rooms.Coherent(s.rooms) && Rested(s) && v < |s.servers|
    ensures var q := CancelOthers(s, i, manager, v);
            && q.servers[v].torn == s.servers[v].torn && q.log == s.log
            && (!s.servers[v].torn ==> SameMember(s.rooms, q.rooms, v))
    decreases |s.clients| - i
  {
    hide Standing, Rested, Rooms.Coherent, SameMember, Cancel;
    SelfMember(s.rooms, v);
    if i < |s.clients| {
      var q := if i in s.pending && s.clients[i].manager == manager && !Owns(s, i, v) then Cancel(s, i) else s;
      CancelFacts(s, i, v);
      if !s.servers[v].torn {
        if q != s { CancelSameMember(s, i, v); }
      }
      CancelOthersSameMember(q, i + 1, manager, v);
      if !s.servers[v].torn { MemberTrans(s.rooms, q.rooms, CancelOthers(q, i + 1, manager, v).rooms, v); }
    }
  }

  // The report.

  /** `o` reports `disconnecting` with the rooms the socket is in, before and after. */
  ghost predicate SeesItsRooms(r: Rooms.State, q: Rooms.State, o: Observation) {
    o.ServerDisconnecting? ==>
      && (forall room :: room in o.rooms <==> o.server in Rooms.Members(r, room))
      && (forall room :: room in o.rooms <==> o.server in Rooms.Members(q, room))
  }

  /** Whatever the step reports, a `disconnecting` among it tells the rooms. */
  ghost predicate Honest(s: State, q: State) {
    forall o :: q.log == s.log + [o] ==> SeesItsRooms(s.rooms, q.rooms, o)
  }

  lemma NotDrained(r: Rooms.State, v: nat)
    requires Rooms.Coherent(r) && v !in r.draining
    ensures forall room :: room in Rooms.View(r, v) <==> v in Rooms.Members(r, room)
  {}

  lemma OneReport(s: State, q: State, o: Observation)
    requires q.log == s.log + [o] && SeesItsRooms(s.rooms, q.rooms, o)
    ensures Honest(s, q)
  {
    forall p | q.log == s.log + [p] ensures p == o { assert (s.log + [p])[|s.log|] == p && (s.log + [o])[|s.log|] == o; }
  }

  lemma NoReport(s: State, q: State)
    requires q.log == s.log
    ensures Honest(s, q)
  {
    forall o ensures q.log != s.log + [o] { assert |s.log + [o]| == |s.log| + 1; }
  }

  lemma UntornNotDrained(s: State, v: nat)
    requires Inv(s) && v < |s.servers| && !s.servers[v].torn
    ensures v !in s.rooms.draining
  {
    hide Standing, Outcomes, Once, LetGo, Leaving, Left, Rooms.Coherent;
    assert v in s.rooms.draining ==> InClean(s.stack, v);
  }

  lemma ServerDisconnectHonest(s: State, q: State, v: nat)
    requires Inv(s) && v < |s.servers| && v < |q.servers| && q.servers[v].torn == s.servers[v].torn && q.log == s.log
    requires !s.servers[v].torn ==> SameMember(s.rooms, q.rooms, v)
    ensures Honest(s, ServerDisconnectCall(q, v))
  {
    hide Honest;
    var r := ServerDisconnectCall(q, v);
    MatchedTasks(s);
    if s.servers[v].torn {
      NoReport(s, r);
    } else {
      UntornNotDrained(s, v);
      NotDrained(s.rooms, v);
      hide Inv;
      OneReport(s, r, ServerDisconnecting(v, Rooms.View(q.rooms, v)));
    }
  }

  lemma GroupNextHonest(s: State, order: seq<nat>, next: nat, v: nat)
    requires Inv(s) && Rested(s) && v < |s.servers|
    ensures Honest(s, GroupNext(s.(stack := s.stack[1..]), order, next, v))
    requires s.stack != []
  {
    hide Inv, Rested, Honest, CancelOthers, ServerDisconnectCall, SameMember;
    var p := s.(stack := s.stack[1..]);
    if next < |order| {
      var q := Push(p, Group(order, next + 1, v));
      var c := order[next];
      if c < |s.clients| && s.clients[c].connected && s.clients[c].server.Some?
         && s.clients[c].server.value < |s.servers|
      {
        SelfMember(s.rooms, s.clients[c].server.value);
        ServerDisconnectHonest(s, q, s.clients[c].server.value);
      } else {
        NoReport(s, q);
      }
    } else {
      MatchedTasks(s);
      SameStandingKeeps(s, p);
      assert Rested(p) by { SameRests(s, p); RestsKeeps(s, p); }
      CancelOthersSameMember(p, 0, ManagerOf(p, v), v);
      ServerDisconnectHonest(s, CancelOthers(p, 0, ManagerOf(p, v), v), v);
    }
  }

  lemma RunTeardownHonest(s: State, v: nat)
    requires Inv(s) && s.stack == [] && s.tasks != [] && s.tasks[0] == TeardownTask(v)
    ensures Honest(s, RunTask(s.(tasks := s.tasks[1..]), s.tasks[0]))
  {
    hide Honest;
    var q := RunTask(s.(tasks := s.tasks[1..]), s.tasks[0]);
    MatchedTasks(s);
    if v < |s.servers| {
      NothingDrained(s);
      NotDrained(s.rooms, v);
      hide Inv;
      OneReport(s, q, ServerDisconnecting(v, Rooms.View(s.rooms, v)));
    } else {
      NoReport(s, q);
    }
  }

  /** A step that reports nothing, or something else. */
  lemma OtherHonest(s: State, q: State)
    requires q.log == s.log || exists o: Observation :: !o.ServerDisconnecting? && q.log == s.log + [o]
    ensures Honest(s, q)
  {
    hide Honest;
    if q.log == s.log {
      NoReport(s, q);
    } else {
      var o: Observation :| !o.ServerDisconnecting? && q.log == s.log + [o];
      OneReport(s, q, o);
    }
  }

  lemma ResumeHonest(s: State, encodes: bool)
    requires Inv(s) && Rested(s) && s.stack != []
    ensures Honest(s, Resume(s.(stack := s.stack[1..]), s.stack[0], encodes))
  {
    var p := s.(stack := s.stack[1..]);
    var f := s.stack[0];
    if f.Group? {
      FrameHead(s);
      hide Inv, Rested, Honest, GroupNext;
      GroupNextHonest(s, f.order, f.next, f.initiator);
    } else {
      hide Inv, Rested, Honest;
      FrameLog(p, f, encodes);
      OtherHonest(s, Resume(p, f, encodes));
    }
  }

  lemma FrameLog(s: State, f: Frame, encodes: bool)
    requires !f.Group?
    ensures Resume(s, f, encodes).log == s.log
            || exists o: Observation :: !o.ServerDisconnecting? && Resume(s, f, encodes).log == s.log + [o]
  {
    hide DiscardOf, Rooms.CleanBegin, Rooms.CleanEnd, Current;
    match f {
      case AfterConnection(a) => DiscardLog(s, a);
      case Flushing(a) =>
        if IsConnected(s, a) && encodes { assert Resume(s, f, encodes).log == s.log + [ClientConnect(a)]; }
      case CleanEnd(v, sync) =>
        assert Resume(s, f, encodes).log == s.log + [ServerDisconnect(v, Rooms.View(Rooms.CleanEnd(s.rooms, v), v))];
      case _ =>
    }
  }

  lemma TaskLog(s: State, t: Task)
    requires !t.TeardownTask?
    ensures RunTask(s, t).log == s.log
            || exists o: Observation :: !o.ServerDisconnecting? && RunTask(s, t).log == s.log + [o]
  {
    hide DiscardOf, Reject, Rooms.Join;
    match t {
      case PairTask(a) => DiscardLog(s, a);
      case DoneTask(a, failed) =>
        DiscardLog(s, a);
        if RunTask(s, t).log != s.log { assert RunTask(s, t).log == s.log + [ServerConnection(a)]; }
      case ErrorTask(a) => assert RunTask(s, t).log == s.log + [ClientError(a)];
      case _ =>
    }
  }

  lemma CallLog(s: State, e: Event)
    requires Enabled(s, e) && !e.DisconnectServer? && !e.Return? && !e.Microtask?
    ensures Perform(s, e).log == s.log
            || exists o: Observation :: !o.ServerDisconnecting? && Perform(s, e).log == s.log + [o]
  {
    hide Reject, TeardownAll, Rooms.Cleanup, Current, Superseded, Guard;
    match e {
      case CloseSpace(space, order) => TeardownAllSameAttempts(s.(closed := s.closed + {space}), order);
      case Authenticate(a) => DiscardLog(s, a);
      case Deliver(i) =>
        var p := s.packets[i];
        if p.via < |s.servers| && s.servers[p.via].client < |s.clients| && Guard(s, p) {
          var o := Arrival(s, p);
          assert DeliverCall(s, i).log == s.log + [o];
        }
      case _ =>
    }
  }

  lemma StepHonest(s: State, e: Event)
    requires Inv(s) && Rested(s)
    ensures Honest(s, Step(s, e))
  {
    hide Inv, Rested, Honest, Resume, RunTask, ServerDisconnectCall;
    if !Enabled(s, e) {
      NoReport(s, s);
    } else {
      match e {
        case DisconnectServer(v) =>
          SelfMember(s.rooms, v);
          ServerDisconnectHonest(s, s, v);
        case Return(encodes) => ResumeHonest(s, encodes);
        case Microtask =>
          var p := s.(tasks := s.tasks[1..]);
          if s.tasks[0].TeardownTask? {
            RunTeardownHonest(s, s.tasks[0].server);
          } else {
            TaskLog(p, s.tasks[0]);
            OtherHonest(s, RunTask(p, s.tasks[0]));
          }
        case _ =>
          CallLog(s, e);
          hide Perform;
          OtherHonest(s, Perform(s, e));
      }
    }
  }
}
