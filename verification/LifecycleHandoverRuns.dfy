/** Admission, establishment and the deferred ends; then the handover invariant over whole runs. */
module LifecycleHandoverRuns {
  import opened Common
  import Rooms
  import opened Lifecycle
  import opened LifecycleStanding
  import opened LifecycleOutcomes
  import opened LifecycleTeardown
  import opened LifecycleMembership
  import opened LifecycleRuns
  import opened LifecycleHandover
  import opened LifecycleHandoverSteps
  import opened LifecycleHandoverTeardown
  import opened LifecycleHandoverFrames
  import opened LifecycleHandoverTasks

  // Admission.

  /** When the completion task of a pending attempt runs, its socket is the only one around. */
  lemma AloneAtAdmission(s: State, a: nat, failed: bool)
    requires Inv(s) && Handover(s) && s.stack == [] && s.tasks != [] && s.tasks[0] == DoneTask(a, failed)
    requires IsPending(s, a) && !SpaceClosed(s, a)
    ensures forall v: nat :: !Other(s.attempts, s.servers, s.rooms, a, v)
    ensures forall v: nat :: DoomedSister(s, a, v) ==> s.attempts[a].server == Some(v)
  {
    hide Protocol, Once, LetGo, Membership, Homes, Provisional, TasksDistinct, TasksInRange, Agreed, Linked, OwnServers,
         NeverAfter, Lingering;
    assert s.tasks[0] in s.tasks;
    assert DoneQueued(s.tasks, a);
    assert s.attempts[a].asked;
    assert DoneFifo(s, a);
    forall v: nat ensures !Other(s.attempts, s.servers, s.rooms, a, v) {
      HeadNeverAfter(s.tasks, TeardownTask(v));
    }
    forall v: nat | DoomedSister(s, a, v) ensures s.attempts[a].server == Some(v) {
      MarkedHead(s, a, failed, v);
    }
  }

  /** A doomed socket of the attempt's client. */
  ghost predicate DoomedSister(s: State, a: nat, v: nat)
    requires a < |s.attempts|
  {
    Doomed(s.servers, s.tasks, s.stack, v) && v < |s.servers| && s.servers[v].client == s.attempts[a].client
  }

  lemma MarkedHead(s: State, a: nat, failed: bool, v: nat)
    requires Waits(s) && s.tasks != [] && s.tasks[0] == DoneTask(a, failed)
    ensures MarkTask(v) in s.tasks ==> !Rival(s.attempts, s.servers, a, v)
  {
    HeadNeverAfter(s.tasks, MarkTask(v));
    hide NeverAfter, StackDoomed;
    assert MarkTask(v) in s.tasks ==> MarkedFirst(s.attempts, s.servers, s.tasks, v);
  }

  lemma HeadNeverAfter(tasks: seq<Task>, x: Task)
    requires tasks != [] && tasks[0] != x
    ensures NeverAfter(tasks, x, tasks[0]) ==> x !in tasks
  {}

  lemma AdmitFifo(s: State, a: nat, v: nat)
    requires Fifo(s) && Homes(s) && Marks(s) && Waits(s) && s.stack == [] && a < |s.attempts| && v < |s.servers|
    requires forall w: nat :: !Other(s.attempts, s.servers, s.rooms, a, w)
    ensures var q := Admit(s, a, v); Fifo(q) && Homes(q) && Marks(q) && Waits(q)
  {
    hide NeverAfter;
    var q := Admit(s, a, v);
    AdmitRooms(s.rooms, v);
    forall b | 0 <= b < |q.attempts| && q.attempts[b].phase == Pending ensures PairFifo(q, b) && DoneFifo(q, b) {
      assert PairFifo(s, b) && DoneFifo(s, b);
      forall w: nat ensures Other(q.attempts, q.servers, q.rooms, b, w) <==> Other(s.attempts, s.servers, s.rooms, b, w) {}
    }
    forall w | 0 <= w < |q.servers| && w !in q.rooms.cleaned ensures HomeOf(q.clients, q.attempts, q.servers, q.stack, w) {
      assert HomeOf(s.clients, s.attempts, s.servers, s.stack, w);
    }
    forall w: nat | MarkTask(w) in q.tasks ensures MarkedFirst(q.attempts, q.servers, q.tasks, w) {
      assert MarkedFirst(s.attempts, s.servers, s.tasks, w);
      forall b: nat, f | Rival(q.attempts, q.servers, b, w) ensures NeverAfter(q.tasks, MarkTask(w), DoneTask(b, f)) {
        assert Rival(s.attempts, s.servers, b, w);
      }
    }
  }

  lemma AdmitRooms(r: Rooms.State, v: nat)
    ensures var q := Rooms.Join(Rooms.Register(r, v), v, v);
            q.cleaned == r.cleaned && q.draining == r.draining && q.roster == r.roster + {v}
  {}

  lemma AdmitClaims(s: State, a: nat, v: nat)
    requires Claims(s) && s.stack == [] && a < |s.attempts| && v < |s.servers|
    requires forall w: nat :: DoomedSister(s, a, w) ==> s.attempts[a].server == Some(w)
    ensures Claims(Admit(s, a, v))
  {
    var q := Admit(s, a, v);
    forall w: nat | Doomed(q.servers, q.tasks, q.stack, w) ensures Claimed(q.clients, q.attempts, q.servers, q.stack, w) {
      assert Doomed(s.servers, s.tasks, s.stack, w);
      assert Claimed(s.clients, s.attempts, s.servers, s.stack, w);
      assert s.servers[w].client == s.attempts[a].client ==> DoomedSister(s, a, w);
    }
  }

  lemma AdmitProvisional(s: State, a: nat, v: nat)
    requires Provisional(s) && OwnServers(s.attempts) && s.stack == [] && a < |s.attempts| && v < |s.servers|
    requires s.attempts[a].server == Some(v) && !NotYetDone(s.attempts, s.tasks, a)
    ensures Provisional(Admit(s, a, v))
  {
    AdmitRooms(s.rooms, v);
    var q := Admit(s, a, v);
    forall b | 0 <= b < |q.attempts| && q.attempts[b].server.Some? && NotYetDone(q.attempts, q.tasks, b)
      ensures Unadmitted(q.clients, q.attempts, q.servers, q.rooms, q.stack, b)
    {
      assert Unadmitted(s.clients, s.attempts, s.servers, s.rooms, s.stack, b);
      assert b != a;
    }
  }

  lemma AdmitRoster(r: Rooms.State, v: nat)
    requires RosterLive(r) && v !in r.cleaned
    ensures RosterLive(Rooms.Join(Rooms.Register(r, v), v, v))
  {
    AdmitRooms(r, v);
  }

  lemma StillUncleaned(s: State, a: nat)
    requires Provisional(s) && a < |s.attempts| && s.attempts[a].phase == Pending && s.attempts[a].server.Some?
    requires DoneQueued(s.tasks, a)
    ensures s.attempts[a].server.value !in s.rooms.cleaned
  {
    assert Unadmitted(s.clients, s.attempts, s.servers, s.rooms, s.stack, a);
  }

  lemma AdmitHandover(s: State, a: nat, failed: bool, v: nat)
    requires Inv(s) && Handover(s) && s.stack == [] && s.tasks != [] && s.tasks[0] == DoneTask(a, failed)
    requires IsPending(s, a) && !SpaceClosed(s, a) && s.attempts[a].server == Some(v) && v < |s.servers|
    ensures Handover(Admit(s.(tasks := s.tasks[1..]), a, v))
  {
    var p := s.(tasks := s.tasks[1..]);
    assert s.tasks[0] in s.tasks;
    assert DoneQueued(s.tasks, a);
    StillUncleaned(s, a);
    AloneAtAdmission(s, a, failed);
    DoneHead(s);
    PopHandover(s);
    PopMembers(s.tasks);
    assert OwnServers(s.attempts);
    assert forall w: nat :: DoomedSister(p, a, w) ==> DoomedSister(s, a, w);
    hide Inv, Homes, Provisional, Claims, Waits, Marks, Fifo, Doomed;
    AdmitFifo(p, a, v);
    AdmitClaims(p, a, v);
    AdmitProvisional(p, a, v);
    AdmitRoster(p.rooms, v);
  }

  // An attempt that was dropped earlier.

  lemma SpentDiscard(s: State, v: Option<nat>)
    requires v.Some? ==> v.value in s.rooms.cleaned
    ensures Untouched(s, DiscardOf(s, v))
  {}

  lemma RunDoneHandover(s: State, a: nat, failed: bool)
    requires Inv(s) && Handover(s) && s.stack == [] && s.tasks != [] && s.tasks[0] == DoneTask(a, failed)
    ensures Handover(RunDone(s.(tasks := s.tasks[1..]), a, failed))
  {
    var p := s.(tasks := s.tasks[1..]);
    PopHandover(s);
    PopInv(s);
    if a < |s.attempts| {
      if failed || (IsPending(p, a) && SpaceClosed(p, a)) {
        hide Inv, Handover;
        RejectHandover(p, a, true);
        RejectHandover(p, a, false);
      } else if !IsPending(p, a) {
        if p.attempts[a].phase != Established {
          DroppedAtDone(s, a, failed);
          hide Inv, Handover;
          SpentDiscard(p, p.attempts[a].server);
          UntouchedHandover(p, DiscardOf(p, p.attempts[a].server));
        }
      } else if p.attempts[a].server.Some? && p.attempts[a].server.value < |p.servers| {
        hide Inv, Handover;
        AdmitHandover(s, a, failed, p.attempts[a].server.value);
      }
    }
  }

  lemma DroppedAtDone(s: State, a: nat, failed: bool)
    requires Inv(s) && s.tasks != [] && s.tasks[0] == DoneTask(a, failed) && a < |s.attempts|
    requires !IsPending(s, a) && s.attempts[a].phase != Established
    ensures s.attempts[a].server.Some? ==> s.attempts[a].server.value in s.rooms.cleaned
  {
    hide Protocol, Once, Membership, Linked, OwnServers, TasksDistinct, TasksInRange, TasksMatch;
    assert s.tasks[0] in s.tasks;
    assert DoneQueued(s.tasks, a);
  }

  // The client's side is established.

  lemma EstablishHomes(s: State, q: State, a: nat)
    requires Standing(s) && Homes(s) && IsPending(s, a) && s.stack == [AfterConnection(a)] && s.rooms.draining == {}
    requires forall v: nat :: !Other(s.attempts, s.servers, s.rooms, a, v)
    requires q == CompleteAttempt(s.(stack := []), a)
    ensures Homes(q)
  {
    forall w | 0 <= w < |q.servers| && w !in q.rooms.cleaned ensures HomeOf(q.clients, q.attempts, q.servers, q.stack, w) {
      assert HomeOf(s.clients, s.attempts, s.servers, s.stack, w);
      assert !Other(s.attempts, s.servers, s.rooms, a, w);
    }
  }

  lemma EstablishProvisional(s: State, q: State, a: nat)
    requires Standing(s) && Provisional(s) && IsPending(s, a) && s.stack == [AfterConnection(a)]
    requires !NotYetDone(s.attempts, s.tasks, a) && s.attempts[a].server.Some?
    requires q == CompleteAttempt(s.(stack := []), a)
    ensures Provisional(q)
  {
    hide Agreed;
    forall b | 0 <= b < |q.attempts| && q.attempts[b].server.Some? && NotYetDone(q.attempts, q.tasks, b)
      ensures Unadmitted(q.clients, q.attempts, q.servers, q.rooms, q.stack, b)
    {
      assert Unadmitted(s.clients, s.attempts, s.servers, s.rooms, s.stack, b);
      assert b != a;
    }
  }

  lemma EstablishClaims(s: State, q: State, a: nat)
    requires Standing(s) && Claims(s) && Waits(s) && Marks(s) && IsPending(s, a) && s.stack == [AfterConnection(a)]
    requires q == CompleteAttempt(s.(stack := []), a)
    ensures Claims(q) && Waits(q) && Marks(q)
  {
    hide NeverAfter, Agreed;
    forall w: nat | Doomed(q.servers, q.tasks, q.stack, w) ensures Claimed(q.clients, q.attempts, q.servers, q.stack, w) {
      assert Doomed(s.servers, s.tasks, s.stack, w);
      assert Claimed(s.clients, s.attempts, s.servers, s.stack, w);
      assert s.servers[w].client == s.attempts[a].client ==> Announced(s.attempts, s.servers, s.stack, a, w);
    }
    forall w: nat | MarkTask(w) in q.tasks ensures MarkedFirst(q.attempts, q.servers, q.tasks, w) {
      assert MarkedFirst(s.attempts, s.servers, s.tasks, w);
      forall b: nat, f | Rival(q.attempts, q.servers, b, w) ensures NeverAfter(q.tasks, MarkTask(w), DoneTask(b, f)) {
        assert Rival(s.attempts, s.servers, b, w);
      }
    }
  }

  lemma EstablishFifo(s: State, q: State, a: nat)
    requires Standing(s) && Fifo(s) && IsPending(s, a) && s.stack == [AfterConnection(a)]
    requires q == CompleteAttempt(s.(stack := []), a)
    ensures Fifo(q)
  {
    hide NeverAfter, Agreed, Lingering;
    forall b | 0 <= b < |q.attempts| && q.attempts[b].phase == Pending ensures PairFifo(q, b) && DoneFifo(q, b) {
      assert PairFifo(s, b) && DoneFifo(s, b);
      assert !InClean(s.stack, 0);
      forall w: nat ensures Other(q.attempts, q.servers, q.rooms, b, w) <==> Other(s.attempts, s.servers, s.rooms, b, w) {}
    }
  }

  lemma AfterConnectionFacts(s: State, a: nat)
    requires Inv(s) && s.stack != [] && s.stack[0] == AfterConnection(a)
    ensures s.stack == [AfterConnection(a)] && s.rooms.draining == {}
    ensures a < |s.attempts| && s.attempts[a].completed && !DoneQueued(s.tasks, a) && !s.attempts[a].connected
    ensures s.attempts[a].server.Some?
  {
    hide Protocol, Once, LetGo, Agreed, Linked, OwnServers, Rooms.Coherent, LeftRooms, FramesInRange, RoomsInRange;
    assert Base(s.stack[0]);
    assert s.stack[0] in s.stack;
    assert s.stack == [AfterConnection(a)];
  }

  lemma EstablishHandover(s: State, a: nat)
    requires Inv(s) && Handover(s) && s.stack != [] && s.stack[0] == AfterConnection(a)
    ensures Handover(CompleteAttempt(s.(stack := s.stack[1..]), a))
  {
    AfterConnectionFacts(s, a);
    var p := s.(stack := []);
    var q := CompleteAttempt(p, a);
    assert s.stack[1..] == [];
    if IsPending(p, a) {
      assert DoneFifo(s, a);
      assert AfterConnection(a) in s.stack;
      hide Outcomes, Protocol, Membership, Once, LetGo, Homes, Provisional, Claims, Waits, Marks, Fifo, Lingering;
      EstablishHomes(s, q, a);
      EstablishProvisional(s, q, a);
      EstablishClaims(s, q, a);
      EstablishFifo(s, q, a);
    } else {
      DroppedAtCompletion(s, a);
      PopBase(s, a);
      hide Inv, Handover;
      if s.attempts[a].phase != Established {
        SpentDiscard(p, p.attempts[a].server);
        UntouchedHandover(p, q);
      }
    }
  }

  lemma PopBase(s: State, a: nat)
    requires Handover(s) && s.stack == [AfterConnection(a)]
    ensures Handover(s.(stack := []))
  {
    DropsHandover(s, []);
  }

  lemma DroppedAtCompletion(s: State, a: nat)
    requires Inv(s) && a < |s.attempts| && !s.attempts[a].connected && !IsPending(s, a)
    ensures s.attempts[a].phase != Established && s.attempts[a].server.Some? ==> s.attempts[a].server.value in s.rooms.cleaned
  {
    hide Protocol, Once, Membership, Outcomes, Linked, OwnServers;
  }

  // Deferred teardown and disconnection.

  lemma RunTeardownFrames(v: nat)
    ensures var next := [Clean(v, false)];
            && (forall w: nat :: InClean(next, w) <==> w == v)
            && (forall w: nat :: !StackDoomed(next, w) && !GroupOf(next, w))
            && (forall a: nat :: AfterConnection(a) !in next) && (forall c: nat :: Tail(c) !in next)
  {}

  lemma RunTeardownFifo(s: State, v: nat)
    requires Fifo(s) && Homes(s) && s.stack == [] && s.tasks != [] && s.tasks[0] == TeardownTask(v) && v < |s.servers|
    ensures var q := RunTeardown(s.(tasks := s.tasks[1..]), v); Fifo(q) && Homes(q)
  {
    RunTeardownFrames(v);
    PopMembers(s.tasks);
    var q := RunTeardown(s.(tasks := s.tasks[1..]), v);
    hide NeverAfter, InClean, Lingering;
    forall b | 0 <= b < |q.attempts| && q.attempts[b].phase == Pending ensures PairFifo(q, b) && DoneFifo(q, b) {
      assert PairFifo(s, b) && DoneFifo(s, b);
      forall w: nat | Other(q.attempts, q.servers, q.rooms, b, w)
        ensures !q.attempts[b].nested ==> !q.attempts[b].asked && NeverAfter(q.tasks, TeardownTask(w), PairTask(b))
        ensures q.attempts[b].asked ==>
                  && (InClean(q.stack, w) || TeardownTask(w) in q.tasks)
                  && NeverAfter(q.tasks, TeardownTask(w), DoneTask(b, true))
                  && NeverAfter(q.tasks, TeardownTask(w), DoneTask(b, false))
      {
        assert Other(s.attempts, s.servers, s.rooms, b, w);
        PopThree(s.tasks, TeardownTask(w), b);
        assert !InClean(s.stack, w) by { EmptyClean(w); }
      }
    }
    forall w | 0 <= w < |q.servers| && w !in q.rooms.cleaned ensures HomeOf(q.clients, q.attempts, q.servers, q.stack, w) {
      assert HomeOf(s.clients, s.attempts, s.servers, s.stack, w);
    }
  }

  lemma EmptyClean(w: nat)
    ensures !InClean([], w)
  {}

  lemma PopThree(tasks: seq<Task>, x: Task, a: nat)
    requires tasks != []
    ensures NeverAfter(tasks, x, PairTask(a)) ==> NeverAfter(tasks[1..], x, PairTask(a))
    ensures NeverAfter(tasks, x, DoneTask(a, true)) ==> NeverAfter(tasks[1..], x, DoneTask(a, true))
    ensures NeverAfter(tasks, x, DoneTask(a, false)) ==> NeverAfter(tasks[1..], x, DoneTask(a, false))
  {}

  lemma RunTeardownRest(s: State, v: nat)
    requires Provisional(s) && Claims(s) && Marks(s) && Waits(s) && s.stack == []
    requires s.tasks != [] && s.tasks[0] == TeardownTask(v) && v < |s.servers|
    ensures var q := RunTeardown(s.(tasks := s.tasks[1..]), v); Provisional(q) && Claims(q) && Marks(q) && Waits(q)
  {
    PopWaits(s);
    RunTeardownFrames(v);
    PopMembers(s.tasks);
    hide StackDoomed, GroupOf, NeverAfter;
    var p := s.(tasks := s.tasks[1..]);
    var q := RunTeardown(p, v);
    forall b | 0 <= b < |q.attempts| && q.attempts[b].server.Some? && NotYetDone(q.attempts, q.tasks, b)
      ensures Unadmitted(q.clients, q.attempts, q.servers, q.rooms, q.stack, b)
    {
      assert Unadmitted(s.clients, s.attempts, s.servers, s.rooms, s.stack, b);
    }
    forall w: nat | Doomed(q.servers, q.tasks, q.stack, w) ensures Claimed(q.clients, q.attempts, q.servers, q.stack, w) {
      assert Claimed(s.clients, s.attempts, s.servers, s.stack, w);
    }
    forall w: nat | MarkTask(w) in q.tasks ensures MarkedFirst(q.attempts, q.servers, q.tasks, w) {
      assert MarkedFirst(p.attempts, p.servers, p.tasks, w);
      forall b: nat, f | Rival(q.attempts, q.servers, b, w) ensures NeverAfter(q.tasks, MarkTask(w), DoneTask(b, f)) {
        assert Rival(p.attempts, p.servers, b, w);
      }
    }
  }

  lemma RunTeardownHandover(s: State, v: nat)
    requires Handover(s) && s.stack == [] && s.tasks != [] && s.tasks[0] == TeardownTask(v) && v < |s.servers|
    ensures Handover(RunTeardown(s.(tasks := s.tasks[1..]), v))
  {
    hide Homes, Provisional, Claims, Waits, Marks, Fifo;
    RunTeardownFifo(s, v);
    RunTeardownRest(s, v);
  }

  /** A deferred disconnection by `v` ends the connection through `v`, never a later one. */
  lemma MarkHitsItsOwn(s: State, v: nat)
    requires Handover(s) && s.tasks != [] && (s.tasks[0] == MarkTask(v) || s.tasks[0] == CloseMarkTask(v))
    requires v < |s.servers| && s.servers[v].client < |s.clients| && s.clients[s.servers[v].client].connected
    ensures s.clients[s.servers[v].client].server == Some(v) && !Lingering(s.rooms, v)
  {
    hide Homes, Provisional, Waits, Fifo, Lingering;
    assert s.tasks[0] in s.tasks;
    assert Doomed(s.servers, s.tasks, s.stack, v);
    assert Claimed(s.clients, s.attempts, s.servers, s.stack, v);
  }

  lemma MarkHomes(s: State, c: nat)
    requires Inv(s) && Handover(s) && c < |s.clients| && s.clients[c].connected
    requires s.clients[c].server.Some? && !Lingering(s.rooms, s.clients[c].server.value)
    ensures Homes(MarkDisconnected(s, c))
  {
    hide Outcomes, Protocol, Once, LetGo, Provisional, Claims, Waits, Marks, Fifo, Membership;
    var q := MarkDisconnected(s, c);
    assert ClientAgrees(s.clients, s.attempts, s.pending, s.connected, c);
    forall w | 0 <= w < |q.servers| && w !in q.rooms.cleaned ensures HomeOf(q.clients, q.attempts, q.servers, q.stack, w) {
      assert HomeOf(s.clients, s.attempts, s.servers, s.stack, w);
    }
  }

  lemma RunMarkHandover(s: State, v: nat)
    requires Inv(s) && Handover(s) && s.tasks != [] && (s.tasks[0] == MarkTask(v) || s.tasks[0] == CloseMarkTask(v))
    ensures Handover(RunMark(s.(tasks := s.tasks[1..]), v))
  {
    hide Inv, Handover, Fewer, Lingering, MarkDisconnected, Homes;
    var p := s.(tasks := s.tasks[1..]);
    PopHandover(s);
    PopInv(s);
    if v < |p.servers| && p.servers[v].client < |p.clients| && p.clients[p.servers[v].client].connected {
      MarkHitsItsOwn(s, v);
      var c := s.servers[v].client;
      MarkHomes(p, c);
      MarkFewer(p, c, []);
      var q := MarkDisconnected(p, c);
      assert q.(stack := [] + q.stack) == q;
      FewerHandover(p, q);
    }
  }

  // Steps that touch nothing.

  lemma DeliverUntouched(s: State, i: nat)
    requires i < |s.packets|
    ensures Untouched(s, DeliverCall(s, i))
  {}

  lemma PushUntouched(s: State, f: Frame)
    requires !Relevant(f) && !f.Group?
    ensures Untouched(s, Push(s, f))
  {
    var q := Push(s, f);
    forall g: Frame ensures g in q.stack <==> g in s.stack || g == f {}
    forall v: nat ensures GroupOf(q.stack, v) <==> GroupOf(s.stack, v) {
      if GroupOf(s.stack, v) { var h: Frame :| h in s.stack && h.Group? && h.initiator == v; assert h in q.stack; }
    }
  }

  lemma PopUntouched(s: State)
    requires s.stack != [] && !Relevant(s.stack[0]) && !s.stack[0].Group?
    ensures Untouched(s, s.(stack := s.stack[1..]))
  {
    PopMembers(s.stack);
    var q := s.(stack := s.stack[1..]);
    forall v: nat ensures GroupOf(q.stack, v) <==> GroupOf(s.stack, v) {
      if GroupOf(s.stack, v) { var h: Frame :| h in s.stack && h.Group? && h.initiator == v; assert h in q.stack; }
      if GroupOf(q.stack, v) { var h: Frame :| h in q.stack && h.Group? && h.initiator == v; assert h in s.stack; }
    }
  }

  lemma JoinUntouched(s: State, v: nat, room: Rooms.Room)
    ensures Untouched(s, s.(rooms := Rooms.Join(s.rooms, v, room)))
    ensures Untouched(s, s.(rooms := Rooms.Leave(s.rooms, v, room)))
  {}

  lemma LogUntouched(s: State, log: seq<Observation>, packets: seq<Packet>)
    ensures Untouched(s, s.(log := log, packets := packets))
  {}

  lemma CallHandover(s: State, e: Event)
    requires Inv(s) && Handover(s) && Enabled(s, e) && Mannerly(s, e) && !e.Return? && !e.Microtask?
    ensures Handover(Perform(s, e))
  {
    hide Inv, Handover, Untouched, ConnectCall, DisconnectCall, ServerDisconnectCall, GroupCall, CloseCall, AuthenticateCall,
         CompleteCall, DeliverCall, Rooms.Join, Rooms.Leave, Admitted, Waiting, Claimed, Owns, Roster, Snapshot;
    match e {
      case Connect(c) => ConnectHandover(s, c);
      case Disconnect(c) => DisconnectHandover(s, c);
      case DisconnectServer(v) =>
        if !s.servers[v].torn { RosterReady(s, v); }
        ServerDisconnectHandover(s, v);
      case DisconnectGroup(v, order) => GroupCallHandover(s, v, order);
      case CloseSpace(space, order) => CloseHandover(s, space, order);
      case Authenticate(a) => AuthenticateHandover(s, a);
      case Complete(a, failed, encodes) => CompleteHandover(s, a, failed, encodes);
      case JoinRoom(v, room) => JoinUntouched(s, v, room); UntouchedHandover(s, Perform(s, e));
      case LeaveRoom(v, room) => JoinUntouched(s, v, room); UntouchedHandover(s, Perform(s, e));
      case Emit(v) =>
        var f := Sending(v, false, s.clients[s.servers[v].client].connected);
        PushUntouched(s, f);
        UntouchedHandover(s, Perform(s, e));
      case Broadcast(order) => PushUntouched(s, Broadcasting(order)); UntouchedHandover(s, Perform(s, e));
      case Deliver(i) => DeliverUntouched(s, i); UntouchedHandover(s, Perform(s, e));
    }
  }

  lemma MicrotaskHandover(s: State)
    requires Inv(s) && Handover(s) && s.stack == [] && s.tasks != []
    ensures Handover(RunTask(s.(tasks := s.tasks[1..]), s.tasks[0]))
  {
    hide Inv, Handover, RunPair, RunDone, RunMark, RunTeardown, Untouched;
    var p := s.(tasks := s.tasks[1..]);
    if !s.tasks[0].TeardownTask? { PopHandover(s); }
    match s.tasks[0] {
      case PairTask(a) => RunPairHandover(s, a);
      case DoneTask(a, failed) => RunDoneHandover(s, a, failed);
      case ErrorTask(a) =>
        LogUntouched(p, p.log + [ClientError(a)], p.packets);
        UntouchedHandover(p, Observe(p, ClientError(a)));
      case TeardownTask(v) =>
        TaskRange(s);
        RunTeardownHandover(s, v);
      case MarkTask(v) => RunMarkHandover(s, v);
      case CloseMarkTask(v) => RunMarkHandover(s, v);
    }
  }

  lemma TaskRange(s: State)
    requires Inv(s) && s.tasks != [] && s.tasks[0].TeardownTask?
    ensures s.tasks[0].server < |s.servers|
  {
    hide Standing, Protocol, Membership, Once, LetGo;
    OutcomeTasks(s);
  }

  lemma BroadcastingHandover(s: State, order: seq<nat>)
    requires Handover(s)
    ensures Handover(BroadcastingResume(s, order))
  {
    hide Handover, Untouched;
    if order != [] {
      var q := Push(s, Broadcasting(order[1..]));
      PushUntouched(s, Broadcasting(order[1..]));
      UntouchedHandover(s, q);
      if order[0] < |s.servers| && s.servers[order[0]].client < |s.clients| {
        var f := Sending(order[0], true, s.clients[s.servers[order[0]].client].connected);
        PushUntouched(q, f);
        UntouchedHandover(q, Push(q, f));
      }
    }
  }

  lemma ReturnHandover(s: State, encodes: bool)
    requires Inv(s) && Handover(s) && s.stack != []
    ensures Handover(Resume(s.(stack := s.stack[1..]), s.stack[0], encodes))
  {
    hide Standing, Outcomes, Protocol, Once, LetGo, Rooms.Coherent, LeftRooms, DrainFrames, RoomsInRange, Handover, Untouched,
         CompleteAttempt, TailResume, CleanResume, CleanEndResume, EndedResume, GroupNext, BroadcastingResume;
    var p := s.(stack := s.stack[1..]);
    var f := s.stack[0];
    FrameHead(s);
    if !Relevant(f) && !f.Group? {
      PopUntouched(s);
      UntouchedHandover(s, p);
    }
    match f {
      case AfterConnection(a) => EstablishHandover(s, a);
      case Flushing(a) =>
        LogUntouched(p, p.log + [ClientConnect(a)], p.packets);
        UntouchedHandover(p, Observe(p, ClientConnect(a)));
      case Tail(c) => TailHandover(s, c);
      case Clean(v, sync) => CleanHandover(s, v, sync);
      case CleanEnd(v, sync) => CleanEndHandover(s, v, sync);
      case Ended(v, sync) => EndedHandover(s, v, sync);
      case Group(order, next, v) => GroupNextHandover(s, order, next, v);
      case Sending(v, broadcast, was) =>
        LogUntouched(p, p.log, Resume(p, f, encodes).packets);
        UntouchedHandover(p, Resume(p, f, encodes));
      case Broadcasting(order) => BroadcastingHandover(p, order);
    }
  }

  lemma StepHandover(s: State, e: Event)
    requires Inv(s) && Handover(s) && Mannerly(s, e)
    ensures Handover(Step(s, e))
  {
    hide Inv, Handover, Mannerly, Resume, RunTask;
    if Enabled(s, e) {
      match e {
        case Return(encodes) => ReturnHandover(s, encodes);
        case Microtask => MicrotaskHandover(s);
        case _ => CallHandover(s, e);
      }
    }
  }

  /** Every server socket is disconnected by hand only while it is in its roster. */
  ghost predicate MannerlyRun(s: State, events: seq<Event>)
    decreases |events|
  {
    events == [] || (Mannerly(s, events[0]) && MannerlyRun(Step(s, events[0]), events[1..]))
  }

  lemma InitialHandover(s: State)
    requires Initial(s)
    ensures Handover(s)
  {
    assert forall v: nat :: !Doomed(s.servers, s.tasks, s.stack, v);
  }

  lemma {:induction false} RunHandover(s: State, events: seq<Event>)
    requires Inv(s) && Handover(s) && MannerlyRun(s, events)
    ensures Handover(Run(s, events))
    decreases |events|
  {
    hide Inv, Handover, Step, Mannerly;
    if events != [] {
      StepHandover(s, events[0]);
      StepInv(s, events[0]);
      RunHandover(Step(s, events[0]), events[1..]);
    }
  }
}
