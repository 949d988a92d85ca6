/**
  The handover invariant is kept by teardowns, group operations and namespace closing, which
  all leave a server socket torn while its client may already be asking for the next one.
 */
module LifecycleHandoverTeardown {
  import opened Common
  import Rooms
  import opened Lifecycle
  import opened LifecycleStanding
  import opened LifecycleOutcomes
  import opened LifecycleTeardown
  import opened LifecycleMembership
  import opened LifecycleRuns
  import opened LifecycleHandover
  import opened LifecycleHandoverSteps

  // When a socket may be torn.

  /** The socket is past its admission. */
  ghost predicate Admitted(attempts: seq<Attempt>, tasks: seq<Task>, v: nat) {
    forall a :: 0 <= a < |attempts| && attempts[a].server == Some(v) ==> !NotYetDone(attempts, tasks, a)
  }

  lemma RosterReady(s: State, v: nat)
    requires Inv(s) && Handover(s) && v < |s.servers| && v in s.rooms.roster && !s.servers[v].torn
    ensures Admitted(s.attempts, s.tasks, v) && Waiting(s.attempts, s.servers, v)
    ensures Claimed(s.clients, s.attempts, s.servers, s.stack, v)
  {
    hide Outcomes, Protocol, Once, LetGo, Claims, Waits, Marks, NeverAfter, InClean, FramesInRange, Rooms.Coherent;
    UntornFacts(s, v);
    assert Lingering(s.rooms, v);
    RosterAdmitted(s, v);
    forall a: nat | Rival(s.attempts, s.servers, a, v) ensures !s.attempts[a].asked {
      RivalNotAsked(s, a, v);
    }
    RosterClaimed(s, v);
  }

  lemma RivalNotAsked(s: State, a: nat, v: nat)
    requires Fifo(s) && Rival(s.attempts, s.servers, a, v) && Lingering(s.rooms, v)
    requires !InClean(s.stack, v) && TeardownTask(v) !in s.tasks
    ensures !s.attempts[a].asked
  {
    hide NeverAfter, InClean, Lingering;
    assert PairFifo(s, a) && DoneFifo(s, a);
  }

  lemma UnadmittedOf(s: State, a: nat)
    requires Provisional(s) && a < |s.attempts| && s.attempts[a].server.Some?
    ensures NotYetDone(s.attempts, s.tasks, a) ==> Unadmitted(s.clients, s.attempts, s.servers, s.rooms, s.stack, a)
  {}

  lemma RosterAdmitted(s: State, v: nat)
    requires Provisional(s) && v in s.rooms.roster
    ensures Admitted(s.attempts, s.tasks, v)
  {
    forall a | 0 <= a < |s.attempts| && s.attempts[a].server == Some(v) ensures !NotYetDone(s.attempts, s.tasks, a) {
      UnadmittedOf(s, a);
    }
  }

  /** A socket in the roster, or one that owns its client, is how its client is connected. */
  lemma RosterClaimed(s: State, v: nat)
    requires Standing(s) && Handover(s) && v < |s.servers| && Lingering(s.rooms, v) && v !in s.rooms.draining
    ensures Claimed(s.clients, s.attempts, s.servers, s.stack, v)
  {
    hide Claims, Waits, Marks, NeverAfter, InClean, Provisional;
    assert HomeOf(s.clients, s.attempts, s.servers, s.stack, v);
    var c := s.servers[v].client;
    assert ClientAgrees(s.clients, s.attempts, s.pending, s.connected, c);
    forall a: nat | Announced(s.attempts, s.servers, s.stack, a, v) ensures s.attempts[a].server == Some(v) {
      assert DoneFifo(s, a);
      assert !Other(s.attempts, s.servers, s.rooms, a, v);
    }
  }

  lemma MemberReady(s: State, c: nat)
    requires Inv(s) && Handover(s) && c < |s.clients| && s.clients[c].connected
    ensures s.clients[c].server.Some? && s.clients[c].server.value < |s.servers|
    ensures var v := s.clients[c].server.value;
            Admitted(s.attempts, s.tasks, v) && Waiting(s.attempts, s.servers, v)
            && Claimed(s.clients, s.attempts, s.servers, s.stack, v)
  {
    hide Outcomes, Protocol, Once, LetGo, Claims, Waits, Marks, Fifo, Homes, Membership;
    assert ClientAgrees(s.clients, s.attempts, s.pending, s.connected, c);
    var v := s.clients[c].server.value;
    forall a | 0 <= a < |s.attempts| && s.attempts[a].server == Some(v) ensures !NotYetDone(s.attempts, s.tasks, a) {
      UnadmittedOf(s, a);
    }
  }

  lemma GroupReady(s: State, v: nat)
    requires Handover(s) && v < |s.servers| && GroupOf(s.stack, v)
    ensures Admitted(s.attempts, s.tasks, v) && Waiting(s.attempts, s.servers, v)
    ensures Claimed(s.clients, s.attempts, s.servers, s.stack, v)
  {
    hide Marks, Fifo, Homes;
    assert StackDoomed(s.stack, v);
    assert Doomed(s.servers, s.tasks, s.stack, v);
    forall a | 0 <= a < |s.attempts| && s.attempts[a].server == Some(v) ensures !NotYetDone(s.attempts, s.tasks, a) {
      UnadmittedOf(s, a);
    }
  }

  // Deferred teardown.

  /** A socket of the client of a pending attempt may only be torn late if the attempt is nested. */
  ghost predicate TornLate(s: State, v: nat) {
    forall a :: 0 <= a < |s.attempts| && s.attempts[a].phase == Pending && Other(s.attempts, s.servers, s.rooms, a, v) ==>
      s.attempts[a].nested && !s.attempts[a].asked
  }

  lemma UntornLate(s: State, v: nat)
    requires Inv(s) && Handover(s) && v < |s.servers| && !s.servers[v].torn
    ensures TornLate(s, v)
  {
    hide Inv, Claims, Waits, Marks, NeverAfter, Homes, Provisional;
    UntornFacts(s, v);
    forall a | 0 <= a < |s.attempts| && s.attempts[a].phase == Pending && Other(s.attempts, s.servers, s.rooms, a, v)
      ensures s.attempts[a].nested && !s.attempts[a].asked
    {
      assert PairFifo(s, a) && DoneFifo(s, a);
      OtherHome(s, a, v);
    }
  }

  lemma TeardownProvisional(s: State, v: nat, closing: bool)
    requires Provisional(s) && v < |s.servers| && Admitted(s.attempts, s.tasks, v)
    ensures Provisional(Teardown(s, v, closing))
  {
    hide GroupOf;
    var q := Teardown(s, v, closing);
    forall a | 0 <= a < |q.attempts| && q.attempts[a].server.Some? && NotYetDone(q.attempts, q.tasks, a)
      ensures Unadmitted(q.clients, q.attempts, q.servers, q.rooms, q.stack, a)
    {
      assert Unadmitted(s.clients, s.attempts, s.servers, s.rooms, s.stack, a);
    }
  }

  lemma TeardownClaims(s: State, v: nat, closing: bool)
    requires Claims(s) && Marks(s) && v < |s.servers| && !s.servers[v].torn && s.servers[v].client < |s.clients|
    requires closing ==> Claimed(s.clients, s.attempts, s.servers, s.stack, v)
                         && s.clients[s.servers[v].client].space in s.closed
    ensures Claims(Teardown(s, v, closing)) && Marks(Teardown(s, v, closing))
  {
    hide StackDoomed;
    var q := Teardown(s, v, closing);
    forall w: nat | Doomed(q.servers, q.tasks, q.stack, w) ensures Claimed(q.clients, q.attempts, q.servers, q.stack, w) {
      assert Claimed(s.clients, s.attempts, s.servers, s.stack, w);
      forall a: nat | Announced(q.attempts, q.servers, q.stack, a, w) ensures q.attempts[a].server == Some(w) {
        assert Announced(s.attempts, s.servers, s.stack, a, w);
      }
    }
  }

  lemma TeardownWaits(s: State, v: nat, closing: bool)
    requires Waits(s) && v < |s.servers|
    ensures Waits(Teardown(s, v, closing))
  {
    hide StackDoomed, NeverAfter;
    var q := Teardown(s, v, closing);
    forall w: nat | StackDoomed(q.stack, w) ensures Waiting(q.attempts, q.servers, w) {
      assert Waiting(s.attempts, s.servers, w);
      forall a: nat | Rival(q.attempts, q.servers, a, w) ensures !q.attempts[a].asked {
        assert Rival(s.attempts, s.servers, a, w);
      }
    }
    forall w: nat | MarkTask(w) in q.tasks ensures MarkedFirst(q.attempts, q.servers, q.tasks, w) {
      assert MarkedFirst(s.attempts, s.servers, s.tasks, w);
      forall a: nat, f | Rival(q.attempts, q.servers, a, w) ensures NeverAfter(q.tasks, MarkTask(w), DoneTask(a, f)) {
        assert Rival(s.attempts, s.servers, a, w);
        NeverAfterAppend(s.tasks, MarkTask(w), DoneTask(a, f), TeardownTask(v));
      }
    }
  }

  lemma TeardownFifo(s: State, v: nat, closing: bool)
    requires Fifo(s) && v < |s.servers| && TornLate(s, v)
    ensures Fifo(Teardown(s, v, closing))
  {
    hide NeverAfter, InClean, Lingering;
    var q := Teardown(s, v, closing);
    if !s.servers[v].torn {
      forall a | 0 <= a < |q.attempts| && q.attempts[a].phase == Pending ensures PairFifo(q, a) && DoneFifo(q, a) {
        assert PairFifo(s, a) && DoneFifo(s, a);
        forall w: nat | Other(q.attempts, q.servers, q.rooms, a, w)
          ensures Other(s.attempts, s.servers, s.rooms, a, w)
          ensures !q.attempts[a].nested ==> !q.attempts[a].asked && NeverAfter(q.tasks, TeardownTask(w), PairTask(a))
          ensures q.attempts[a].asked ==>
                    && (InClean(q.stack, w) || TeardownTask(w) in q.tasks)
                    && NeverAfter(q.tasks, TeardownTask(w), DoneTask(a, true))
                    && NeverAfter(q.tasks, TeardownTask(w), DoneTask(a, false))
        {
          assert Other(s.attempts, s.servers, s.rooms, a, w);
          if w != v {
            NeverAfterGrow(s.tasks, TeardownTask(w), a, TeardownTask(v));
          }
        }
      }
    }
  }

  lemma NeverAfterGrow(tasks: seq<Task>, x: Task, a: nat, z: Task)
    requires z != x
    ensures NeverAfter(tasks, x, PairTask(a)) ==> NeverAfter(tasks + [z], x, PairTask(a))
    ensures NeverAfter(tasks, x, DoneTask(a, true)) ==> NeverAfter(tasks + [z], x, DoneTask(a, true))
    ensures NeverAfter(tasks, x, DoneTask(a, false)) ==> NeverAfter(tasks + [z], x, DoneTask(a, false))
  {}

  lemma TeardownHomes(s: State, v: nat, closing: bool)
    requires Homes(s) && v < |s.servers|
    ensures Homes(Teardown(s, v, closing))
  {
    var q := Teardown(s, v, closing);
    forall w | 0 <= w < |q.servers| && w !in q.rooms.cleaned ensures HomeOf(q.clients, q.attempts, q.servers, q.stack, w) {
      assert HomeOf(s.clients, s.attempts, s.servers, s.stack, w);
    }
  }

  lemma TeardownHandover(s: State, v: nat, closing: bool)
    requires Inv(s) && Handover(s) && v < |s.servers|
    requires !s.servers[v].torn ==> Admitted(s.attempts, s.tasks, v)
    requires closing && !s.servers[v].torn ==>
               Claimed(s.clients, s.attempts, s.servers, s.stack, v)
               && s.clients[s.servers[v].client].space in s.closed
    ensures Handover(Teardown(s, v, closing))
  {
    if !s.servers[v].torn {
      UntornLate(s, v);
      hide Outcomes, Protocol, Once, LetGo, Membership, Homes, Provisional, Claims, Waits, Marks, Fifo, Admitted, TornLate;
      TeardownHomes(s, v, closing);
      TeardownProvisional(s, v, closing);
      TeardownClaims(s, v, closing);
      TeardownWaits(s, v, closing);
      TeardownFifo(s, v, closing);
    }
  }

  lemma TeardownInv(s: State, v: nat, closing: bool)
    requires Inv(s) && v < |s.servers|
    ensures Inv(Teardown(s, v, closing))
  {
    TeardownSame(s, v, closing);
    SameStandingKeeps(s, Teardown(s, v, closing));
    TeardownOutcomes(s, v, closing);
    TeardownProtocol(s, v, closing);
    TeardownMembership(s, v, closing);
    hide Standing, Outcomes, Protocol, Membership, Once;
  }

  lemma {:induction false} TeardownAllHandover(s: State, order: seq<nat>)
    requires Inv(s) && Handover(s)
    requires forall i :: 0 <= i < |order| ==>
               order[i] < |s.servers| && order[i] in s.rooms.roster && s.servers[order[i]].client < |s.clients|
               && s.clients[s.servers[order[i]].client].space in s.closed
    ensures Handover(TeardownAll(s, order))
    decreases |order|
  {
    hide Inv, Handover, Claimed, Admitted;
    if order != [] {
      var v := order[0];
      var q := Teardown(s, v, true);
      if !s.servers[v].torn { RosterReady(s, v); }
      TeardownHandover(s, v, true);
      TeardownInv(s, v, true);
      TeardownAllHandover(q, order[1..]);
    }
  }

  lemma ClosedHandover(s: State, space: nat)
    requires Handover(s)
    ensures Handover(s.(closed := s.closed + {space}))
  {
    hide Provisional, Claims, Waits, Homes;
    var q := s.(closed := s.closed + {space});
    assert Provisional(q) && Claims(q) && Waits(q) && Homes(q) by { ClosedSame(s, space); }
    ClosedFifo(s, space);
    hide Fifo;
  }

  lemma ClosedSame(s: State, space: nat)
    requires Provisional(s) && Claims(s) && Waits(s) && Homes(s)
    ensures var q := s.(closed := s.closed + {space}); Provisional(q) && Claims(q) && Waits(q) && Homes(q)
  {}

  lemma ClosedFifo(s: State, space: nat)
    requires Fifo(s)
    ensures Fifo(s.(closed := s.closed + {space}))
  {
    hide NeverAfter, InClean, Lingering;
    var q := s.(closed := s.closed + {space});
    forall a | 0 <= a < |q.attempts| && q.attempts[a].phase == Pending ensures PairFifo(q, a) && DoneFifo(q, a) {
      assert PairFifo(s, a) && DoneFifo(s, a);
    }
  }

  lemma ClosedInv(s: State, space: nat)
    requires Inv(s)
    ensures Inv(s.(closed := s.closed + {space}))
  {
    var q := s.(closed := s.closed + {space});
    SameStandingKeeps(s, q);
    ClosedOutcomes(s, space);
    UniqueOf(s);
    ClosedStill(s, space);
    StillKeeps(s, q);
    SameMembershipKeeps(s, q);
    hide Standing, Outcomes, Protocol, Membership, Once;
  }

  lemma CloseHandover(s: State, space: nat, order: seq<nat>)
    requires Inv(s) && Handover(s) && Roster(s, space, order)
    ensures Handover(CloseCall(s, space, order))
  {
    hide Inv, Handover, TeardownAll;
    ClosedHandover(s, space);
    ClosedInv(s, space);
    TeardownAllHandover(s.(closed := s.closed + {space}), order);
  }

  // Synchronous disconnection.

  lemma ServerDisconnectProvisional(s: State, v: nat)
    requires Provisional(s) && v < |s.servers| && Admitted(s.attempts, s.tasks, v)
    ensures Provisional(ServerDisconnectCall(s, v))
  {
    var q := ServerDisconnectCall(s, v);
    forall a | 0 <= a < |q.attempts| && q.attempts[a].server.Some? && NotYetDone(q.attempts, q.tasks, a)
      ensures Unadmitted(q.clients, q.attempts, q.servers, q.rooms, q.stack, a)
    {
      assert Unadmitted(s.clients, s.attempts, s.servers, s.rooms, s.stack, a);
    }
  }

  lemma CleanFrames(stack: seq<Frame>, v: nat)
    ensures var next := [Clean(v, true)] + stack;
            && (forall w: nat :: StackDoomed(next, w) <==> StackDoomed(stack, w) || w == v)
            && (forall w: nat :: InClean(next, w) <==> InClean(stack, w) || w == v)
            && (forall a: nat :: AfterConnection(a) in next <==> AfterConnection(a) in stack)
            && (forall c: nat :: Tail(c) in next <==> Tail(c) in stack)
  {
    var next := [Clean(v, true)] + stack;
    forall f ensures f in next <==> f in stack || f == Clean(v, true) {}
  }

  lemma ServerDisconnectClaims(s: State, v: nat)
    requires Claims(s) && Marks(s) && v < |s.servers| && Claimed(s.clients, s.attempts, s.servers, s.stack, v)
    ensures Claims(ServerDisconnectCall(s, v)) && Marks(ServerDisconnectCall(s, v))
  {
    if !s.servers[v].torn {
      CleanFrames(s.stack, v);
      hide StackDoomed;
      var q := ServerDisconnectCall(s, v);
      forall w: nat | Doomed(q.servers, q.tasks, q.stack, w) ensures Claimed(q.clients, q.attempts, q.servers, q.stack, w) {
        assert Claimed(s.clients, s.attempts, s.servers, s.stack, w);
        forall a: nat | Announced(q.attempts, q.servers, q.stack, a, w) ensures q.attempts[a].server == Some(w) {
          assert Announced(s.attempts, s.servers, s.stack, a, w);
        }
      }
    }
  }

  lemma ServerDisconnectWaits(s: State, v: nat)
    requires Waits(s) && v < |s.servers| && Waiting(s.attempts, s.servers, v)
    ensures Waits(ServerDisconnectCall(s, v))
  {
    if !s.servers[v].torn {
      CleanFrames(s.stack, v);
      hide StackDoomed, NeverAfter;
      var q := ServerDisconnectCall(s, v);
      forall w: nat | StackDoomed(q.stack, w) ensures Waiting(q.attempts, q.servers, w) {
        assert Waiting(s.attempts, s.servers, w);
        forall a: nat | Rival(q.attempts, q.servers, a, w) ensures !q.attempts[a].asked {
          assert Rival(s.attempts, s.servers, a, w);
        }
      }
      forall w: nat | MarkTask(w) in q.tasks ensures MarkedFirst(q.attempts, q.servers, q.tasks, w) {
        assert MarkedFirst(s.attempts, s.servers, s.tasks, w);
        forall a: nat, f | Rival(q.attempts, q.servers, a, w) ensures NeverAfter(q.tasks, MarkTask(w), DoneTask(a, f)) {
          assert Rival(s.attempts, s.servers, a, w);
        }
      }
    }
  }

  lemma ServerDisconnectFifo(s: State, v: nat)
    requires Fifo(s) && v < |s.servers|
    ensures Fifo(ServerDisconnectCall(s, v))
  {
    if !s.servers[v].torn {
      CleanFrames(s.stack, v);
      hide NeverAfter, InClean, Lingering;
      var q := ServerDisconnectCall(s, v);
      forall a | 0 <= a < |q.attempts| && q.attempts[a].phase == Pending ensures PairFifo(q, a) && DoneFifo(q, a) {
        assert PairFifo(s, a) && DoneFifo(s, a);
        forall w: nat ensures Other(q.attempts, q.servers, q.rooms, a, w) <==> Other(s.attempts, s.servers, s.rooms, a, w) {}
      }
    }
  }

  lemma ServerDisconnectHomes(s: State, v: nat)
    requires Homes(s) && v < |s.servers|
    ensures Homes(ServerDisconnectCall(s, v))
  {
    var q := ServerDisconnectCall(s, v);
    forall w | 0 <= w < |q.servers| && w !in q.rooms.cleaned ensures HomeOf(q.clients, q.attempts, q.servers, q.stack, w) {
      assert HomeOf(s.clients, s.attempts, s.servers, s.stack, w);
    }
  }

  lemma ServerDisconnectHandover(s: State, v: nat)
    requires Handover(s) && v < |s.servers|
    requires !s.servers[v].torn ==>
               Admitted(s.attempts, s.tasks, v) && Waiting(s.attempts, s.servers, v)
               && Claimed(s.clients, s.attempts, s.servers, s.stack, v)
    ensures Handover(ServerDisconnectCall(s, v))
  {
    hide Homes, Provisional, Claims, Waits, Marks, Fifo, Admitted, Waiting, Claimed;
    if !s.servers[v].torn {
      ServerDisconnectHomes(s, v);
      ServerDisconnectProvisional(s, v);
      ServerDisconnectClaims(s, v);
      ServerDisconnectWaits(s, v);
      ServerDisconnectFifo(s, v);
    }
  }

  // Frames come and go.

  /** The same state but for the stack, on which dooms and group operations may only end. */
  ghost predicate Drops(s: State, q: State) {
    && q == s.(stack := q.stack)
    && (forall v: nat :: StackDoomed(q.stack, v) ==> StackDoomed(s.stack, v))
    && (forall v: nat :: GroupOf(q.stack, v) ==> GroupOf(s.stack, v))
    && (forall v: nat :: InClean(q.stack, v) <==> InClean(s.stack, v))
    && (forall a: nat :: AfterConnection(a) in q.stack ==> AfterConnection(a) in s.stack)
    && (forall c: nat :: Tail(c) in q.stack ==> Tail(c) in s.stack)
    && (forall c: nat :: Tail(c) in s.stack && c < |s.clients| ==>
          Tail(c) in q.stack || (s.clients[c].server.Some? ==> TornAt(s.servers, s.clients[c].server.value)))
  }

  predicate TornAt(servers: seq<Server>, v: nat) {
    v < |servers| && servers[v].torn
  }

  lemma DropsHomes(s: State, stack: seq<Frame>)
    requires Homes(s) && Drops(s, s.(stack := stack))
    ensures Homes(s.(stack := stack))
  {
    var q := s.(stack := stack);
    forall w | 0 <= w < |q.servers| && w !in q.rooms.cleaned ensures HomeOf(q.clients, q.attempts, q.servers, q.stack, w) {
      assert HomeOf(s.clients, s.attempts, s.servers, s.stack, w);
    }
  }

  lemma DropsProvisional(s: State, stack: seq<Frame>)
    requires Provisional(s) && Drops(s, s.(stack := stack))
    ensures Provisional(s.(stack := stack))
  {
    hide GroupOf, StackDoomed, InClean;
    var q := s.(stack := stack);
    forall a | 0 <= a < |q.attempts| && q.attempts[a].server.Some? && NotYetDone(q.attempts, q.tasks, a)
      ensures Unadmitted(q.clients, q.attempts, q.servers, q.rooms, q.stack, a)
    {
      assert Unadmitted(s.clients, s.attempts, s.servers, s.rooms, s.stack, a);
    }
  }

  lemma DropsClaims(s: State, stack: seq<Frame>)
    requires Claims(s) && Waits(s) && Drops(s, s.(stack := stack))
    ensures Claims(s.(stack := stack)) && Waits(s.(stack := stack))
  {
    hide GroupOf, StackDoomed, InClean, NeverAfter;
    var q := s.(stack := stack);
    forall w: nat | Doomed(q.servers, q.tasks, q.stack, w) ensures Claimed(q.clients, q.attempts, q.servers, q.stack, w) {
      assert Claimed(s.clients, s.attempts, s.servers, s.stack, w);
      forall a: nat | Announced(q.attempts, q.servers, q.stack, a, w) ensures q.attempts[a].server == Some(w) {
        assert Announced(s.attempts, s.servers, s.stack, a, w);
      }
    }
  }

  lemma DropsFifo(s: State, stack: seq<Frame>)
    requires Fifo(s) && Drops(s, s.(stack := stack))
    ensures Fifo(s.(stack := stack))
  {
    hide GroupOf, StackDoomed, InClean, NeverAfter, Lingering;
    var q := s.(stack := stack);
    forall a | 0 <= a < |q.attempts| && q.attempts[a].phase == Pending ensures PairFifo(q, a) && DoneFifo(q, a) {
      assert PairFifo(s, a) && DoneFifo(s, a);
      forall w: nat ensures Other(q.attempts, q.servers, q.rooms, a, w) <==> Other(s.attempts, s.servers, s.rooms, a, w) {}
    }
  }

  lemma DropsHandover(s: State, stack: seq<Frame>)
    requires Handover(s) && Drops(s, s.(stack := stack))
    ensures Handover(s.(stack := stack))
  {
    DropsHomes(s, stack);
    DropsProvisional(s, stack);
    DropsClaims(s, stack);
    DropsFifo(s, stack);
    hide Homes, Provisional, Claims, Waits, Fifo, Drops;
  }

  // The rest of a client's own disconnect.

  lemma TailInv(s: State, c: nat)
    requires Inv(s) && s.stack != [] && s.stack[0] == Tail(c)
    ensures c < |s.clients| && (s.clients[c].server.Some? ==> s.clients[c].server.value < |s.servers|)
  {
    hide Outcomes, Protocol, Once, LetGo, Agreed, Rooms.Coherent, LeftRooms, DrainFrames;
    assert s.stack[0] in s.stack;
  }

  lemma ConnectionAdmitted(s: State, c: nat)
    requires Standing(s) && Provisional(s) && c < |s.clients| && s.clients[c].server.Some?
    ensures Admitted(s.attempts, s.tasks, s.clients[c].server.value)
  {
    hide Agreed;
    var v := s.clients[c].server.value;
    forall a | 0 <= a < |s.attempts| && s.attempts[a].server == Some(v) ensures !NotYetDone(s.attempts, s.tasks, a) {
      UnadmittedOf(s, a);
    }
  }

  lemma TailDrops(s: State, c: nat)
    requires s.stack != [] && s.stack[0] == Tail(c) && c < |s.clients|
    requires s.clients[c].server.Some? ==> TornAt(s.servers, s.clients[c].server.value)
    ensures Drops(s, s.(stack := s.stack[1..]))
  {
    PopMembers(s.stack);
  }

  lemma TailHandover(s: State, c: nat)
    requires Inv(s) && Handover(s) && s.stack != [] && s.stack[0] == Tail(c)
    ensures Handover(TailResume(s.(stack := s.stack[1..]), c))
  {
    TailInv(s, c);
    var server := s.clients[c].server;
    if server.Some? {
      var v := server.value;
      ConnectionAdmitted(s, c);
      hide Inv, Handover, Drops, Admitted, Claimed;
      TeardownHandover(s, v, false);
      var q := Teardown(s, v, false);
      TailDrops(q, c);
      DropsHandover(q, q.stack[1..]);
      assert TailResume(s.(stack := s.stack[1..]), c) == q.(stack := q.stack[1..]);
    } else {
      hide Inv, Handover, Drops;
      TailDrops(s, c);
      DropsHandover(s, s.stack[1..]);
    }
  }
}
