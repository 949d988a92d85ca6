/** The handover invariant is kept by microtasks and by the callbacks that lead to them. */
module LifecycleHandoverTasks {
  import opened Common
  import Rooms
  import opened Lifecycle
  import opened LifecycleStanding
  import opened LifecycleOutcomes
  import opened LifecycleTeardown
  import opened LifecycleMembership
  import opened LifecycleRuns
  import opened LifecycleHandover
  import opened LifecycleHandoverSteps
  import opened LifecycleHandoverTeardown
  import opened LifecycleHandoverFrames

  // The head of the queue.

  lemma PopInv(s: State)
    requires Inv(s) && s.tasks != [] && !s.tasks[0].ErrorTask? && !s.tasks[0].TeardownTask?
    ensures Inv(s.(tasks := s.tasks[1..]))
  {
    var p := s.(tasks := s.tasks[1..]);
    SameStandingKeeps(s, p);
    PopTaskKeeps(s);
    UniqueOf(s);
    PopTaskStill(s);
    StillKeeps(s, p);
    SameMembershipKeeps(s, p);
    hide Standing, Outcomes, Protocol, Membership, Once;
  }

  lemma PopWaits(s: State)
    requires Waits(s) && s.tasks != []
    ensures Waits(s.(tasks := s.tasks[1..]))
  {
    hide StackDoomed, NeverAfter;
    PopMembers(s.tasks);
    var p := s.(tasks := s.tasks[1..]);
    forall v: nat | MarkTask(v) in p.tasks ensures MarkedFirst(p.attempts, p.servers, p.tasks, v) {
      assert MarkedFirst(s.attempts, s.servers, s.tasks, v);
      forall a: nat, f | Rival(p.attempts, p.servers, a, v) ensures NeverAfter(p.tasks, MarkTask(v), DoneTask(a, f)) {
        NeverAfterPop(s.tasks, MarkTask(v), DoneTask(a, f));
      }
    }
  }

  lemma PopFifo(s: State)
    requires Fifo(s) && s.tasks != [] && !s.tasks[0].TeardownTask?
    ensures Fifo(s.(tasks := s.tasks[1..]))
  {
    hide Fifo, NeverAfter;
    PopMembers(s.tasks);
    forall x: Task, y: Task | NeverAfter(s.tasks, x, y) && x.TeardownTask? ensures NeverAfter(s.tasks[1..], x, y) {
      NeverAfterPop(s.tasks, x, y);
    }
    KeepsOrderFifo(s, s.tasks[1..]);
  }

  lemma PopRest(s: State)
    requires Homes(s) && Provisional(s) && Claims(s) && Marks(s) && s.tasks != []
    ensures var p := s.(tasks := s.tasks[1..]); Homes(p) && Provisional(p) && Claims(p) && Marks(p)
  {
    hide StackDoomed, GroupOf;
    PopMembers(s.tasks);
    var p := s.(tasks := s.tasks[1..]);
    forall a | 0 <= a < |p.attempts| && p.attempts[a].server.Some? && NotYetDone(p.attempts, p.tasks, a)
      ensures Unadmitted(p.clients, p.attempts, p.servers, p.rooms, p.stack, a)
    {
      assert Unadmitted(s.clients, s.attempts, s.servers, s.rooms, s.stack, a);
    }
  }

  lemma PopHandover(s: State)
    requires Handover(s) && s.tasks != [] && !s.tasks[0].TeardownTask?
    ensures Handover(s.(tasks := s.tasks[1..]))
  {
    PopWaits(s);
    PopFifo(s);
    PopRest(s);
    hide Homes, Provisional, Claims, Waits, Marks, Fifo;
  }

  // Asking for the auth payload.

  /** When the pairing task of an ordinary attempt runs, no other socket of its client is around. */
  lemma NoOtherAtPairing(s: State, a: nat, v: nat)
    requires Inv(s) && Handover(s) && s.stack == [] && s.tasks != [] && s.tasks[0] == PairTask(a)
    requires a < |s.attempts| && s.attempts[a].phase == Pending && Other(s.attempts, s.servers, s.rooms, a, v)
    ensures TeardownTask(v) in s.tasks && s.attempts[a].nested
  {
    OtherHome(s, a, v);
    TornFacts(s, v);
    assert PairFifo(s, a);
    hide Inv, Homes, Provisional, Claims, Waits, Marks;
    assert s.tasks[0] == PairTask(a);
    assert NeverAfter(s.tasks, TeardownTask(v), PairTask(a)) ==> TeardownTask(v) !in s.tasks;
  }

  lemma AskFifo(s: State, a: nat)
    requires Inv(s) && Handover(s) && s.stack == [] && s.tasks != [] && s.tasks[0] == PairTask(a)
    requires a < |s.attempts| && s.attempts[a].phase == Pending
    ensures var p := s.(tasks := s.tasks[1..]); Fifo(SetAttempt(p, a, s.attempts[a].(asked := true)))
  {
    PopHandover(s);
    PopMembers(s.tasks);
    var p := s.(tasks := s.tasks[1..]);
    var q := SetAttempt(p, a, s.attempts[a].(asked := true));
    forall v: nat | Other(s.attempts, s.servers, s.rooms, a, v) ensures TeardownTask(v) in s.tasks && s.attempts[a].nested {
      NoOtherAtPairing(s, a, v);
    }
    if !s.attempts[a].asked { NotAskedNotDone(s, a); }
    hide Inv, NeverAfter, InClean, Lingering, Homes, Provisional, Claims, Waits, Marks;
    forall b | 0 <= b < |q.attempts| && q.attempts[b].phase == Pending ensures PairFifo(q, b) && DoneFifo(q, b) {
      assert PairFifo(p, b) && DoneFifo(p, b);
      forall w: nat ensures Other(q.attempts, q.servers, q.rooms, b, w) <==> Other(p.attempts, p.servers, p.rooms, b, w) {}
      if b == a && !s.attempts[a].asked {
        forall w: nat, f: bool ensures NeverAfter(q.tasks, TeardownTask(w), DoneTask(a, f)) {
          NeverIn(q.tasks, TeardownTask(w), DoneTask(a, f));
        }
      }
    }
  }

  lemma AskRest(s: State, a: nat)
    requires Homes(s) && Provisional(s) && Claims(s) && Marks(s) && Waits(s) && a < |s.attempts| && s.stack == []
    ensures var q := SetAttempt(s, a, s.attempts[a].(asked := true)); Homes(q) && Provisional(q) && Marks(q)
  {
    var q := SetAttempt(s, a, s.attempts[a].(asked := true));
    forall b | 0 <= b < |q.attempts| && q.attempts[b].server.Some? && NotYetDone(q.attempts, q.tasks, b)
      ensures Unadmitted(q.clients, q.attempts, q.servers, q.rooms, q.stack, b)
    {
      assert Unadmitted(s.clients, s.attempts, s.servers, s.rooms, s.stack, b);
    }
    forall w | 0 <= w < |q.servers| && w !in q.rooms.cleaned ensures HomeOf(q.clients, q.attempts, q.servers, q.stack, w) {
      assert HomeOf(s.clients, s.attempts, s.servers, s.stack, w);
    }
  }

  lemma AskClaims(s: State, a: nat)
    requires Claims(s) && Waits(s) && a < |s.attempts| && s.stack == []
    ensures var q := SetAttempt(s, a, s.attempts[a].(asked := true)); Claims(q) && Waits(q)
  {
    hide NeverAfter;
    var q := SetAttempt(s, a, s.attempts[a].(asked := true));
    forall w: nat | Doomed(q.servers, q.tasks, q.stack, w) ensures Claimed(q.clients, q.attempts, q.servers, q.stack, w) {
      assert Claimed(s.clients, s.attempts, s.servers, s.stack, w);
    }
    forall w: nat | MarkTask(w) in q.tasks ensures MarkedFirst(q.attempts, q.servers, q.tasks, w) {
      assert MarkedFirst(s.attempts, s.servers, s.tasks, w);
      forall b: nat, f | Rival(q.attempts, q.servers, b, w) ensures NeverAfter(q.tasks, MarkTask(w), DoneTask(b, f)) {
        assert Rival(s.attempts, s.servers, b, w);
      }
    }
  }

  lemma RunPairHandover(s: State, a: nat)
    requires Inv(s) && Handover(s) && s.stack == [] && s.tasks != [] && s.tasks[0] == PairTask(a)
    ensures Handover(RunPair(s.(tasks := s.tasks[1..]), a))
  {
    var p := s.(tasks := s.tasks[1..]);
    PopHandover(s);
    if !IsPending(p, a) {
    } else if SpaceClosed(p, a) {
      hide Inv, Handover;
      PopInv(s);
      RejectHandover(p, a, true);
    } else {
      AskFifo(s, a);
      AskRest(p, a);
      AskClaims(p, a);
      hide Inv, Homes, Provisional, Claims, Waits, Marks, Fifo;
    }
  }

  // The middleware completes.

  lemma CompleteProvisional(s: State, a: nat, failed: bool, encodes: bool)
    requires Homes(s) && Provisional(s) && Claims(s) && Marks(s) && a < |s.attempts|
    requires s.attempts[a].server.Some? && !s.attempts[a].completed
    ensures var q := CompleteCall(s, a, failed, encodes); Homes(q) && Provisional(q) && Marks(q)
  {
    hide GroupOf, StackDoomed;
    var q := CompleteCall(s, a, failed, encodes);
    forall b | 0 <= b < |q.attempts| && q.attempts[b].server.Some? && NotYetDone(q.attempts, q.tasks, b)
      ensures Unadmitted(q.clients, q.attempts, q.servers, q.rooms, q.stack, b)
    {
      assert NotYetDone(s.attempts, s.tasks, b);
      assert Unadmitted(s.clients, s.attempts, s.servers, s.rooms, s.stack, b);
    }
    forall w | 0 <= w < |q.servers| && w !in q.rooms.cleaned ensures HomeOf(q.clients, q.attempts, q.servers, q.stack, w) {
      assert HomeOf(s.clients, s.attempts, s.servers, s.stack, w);
    }
  }

  lemma CompleteClaims(s: State, a: nat, failed: bool, encodes: bool)
    requires Claims(s) && Waits(s) && a < |s.attempts| && s.attempts[a].server.Some? && !s.attempts[a].completed
    ensures var q := CompleteCall(s, a, failed, encodes); Claims(q) && Waits(q)
  {
    hide NeverAfter, StackDoomed;
    var q := CompleteCall(s, a, failed, encodes);
    forall w: nat | Doomed(q.servers, q.tasks, q.stack, w) ensures Claimed(q.clients, q.attempts, q.servers, q.stack, w) {
      assert Claimed(s.clients, s.attempts, s.servers, s.stack, w);
      forall b: nat | Announced(q.attempts, q.servers, q.stack, b, w) ensures q.attempts[b].server == Some(w) {
        assert Announced(s.attempts, s.servers, s.stack, b, w);
      }
    }
    forall w: nat | StackDoomed(q.stack, w) ensures Waiting(q.attempts, q.servers, w) {
      assert Waiting(s.attempts, s.servers, w);
      forall b: nat | Rival(q.attempts, q.servers, b, w) ensures !q.attempts[b].asked {
        assert Rival(s.attempts, s.servers, b, w);
      }
    }
    forall w: nat | MarkTask(w) in q.tasks ensures MarkedFirst(q.attempts, q.servers, q.tasks, w) {
      assert MarkedFirst(s.attempts, s.servers, s.tasks, w);
      forall b: nat, f | Rival(q.attempts, q.servers, b, w) ensures NeverAfter(q.tasks, MarkTask(w), DoneTask(b, f)) {
        assert Rival(s.attempts, s.servers, b, w);
        NeverAfterAppend(s.tasks, MarkTask(w), DoneTask(b, f), DoneTask(a, failed));
      }
    }
  }

  lemma CompleteFifo(s: State, a: nat, failed: bool, encodes: bool)
    requires Fifo(s) && a < |s.attempts| && s.attempts[a].server.Some? && !s.attempts[a].completed
    ensures Fifo(CompleteCall(s, a, failed, encodes))
  {
    hide NeverAfter, InClean, Lingering;
    var q := CompleteCall(s, a, failed, encodes);
    forall b | 0 <= b < |q.attempts| && q.attempts[b].phase == Pending ensures PairFifo(q, b) && DoneFifo(q, b) {
      assert PairFifo(s, b) && DoneFifo(s, b);
      forall w: nat | Other(q.attempts, q.servers, q.rooms, b, w)
        ensures !q.attempts[b].nested ==> !q.attempts[b].asked && NeverAfter(q.tasks, TeardownTask(w), PairTask(b))
        ensures q.attempts[b].asked ==>
                  && (InClean(q.stack, w) || TeardownTask(w) in q.tasks)
                  && NeverAfter(q.tasks, TeardownTask(w), DoneTask(b, true))
                  && NeverAfter(q.tasks, TeardownTask(w), DoneTask(b, false))
      {
        assert Other(s.attempts, s.servers, s.rooms, b, w);
        NeverAfterGrow(s.tasks, TeardownTask(w), b, DoneTask(a, failed));
      }
      forall w: nat ensures Other(q.attempts, q.servers, q.rooms, b, w) <==> Other(s.attempts, s.servers, s.rooms, b, w) {}
    }
  }

  lemma CompleteHandover(s: State, a: nat, failed: bool, encodes: bool)
    requires Handover(s) && a < |s.attempts|
    ensures Handover(CompleteCall(s, a, failed, encodes))
  {
    hide Homes, Provisional, Claims, Waits, Marks, Fifo;
    if s.attempts[a].server.Some? && !s.attempts[a].completed {
      CompleteProvisional(s, a, failed, encodes);
      CompleteClaims(s, a, failed, encodes);
      CompleteFifo(s, a, failed, encodes);
    }
  }

  // The auth payload arrives.

  lemma FreshFacts(s: State, v: nat)
    requires Inv(s) && v == |s.servers|
    ensures v !in s.rooms.cleaned && v !in s.rooms.roster && v !in s.rooms.draining
    ensures !GroupOf(s.stack, v)
    ensures forall c :: 0 <= c < |s.clients| ==> s.clients[c].server != Some(v)
    ensures forall b :: 0 <= b < |s.attempts| ==> s.attempts[b].server != Some(v)
    ensures !StackDoomed(s.stack, v) && MarkTask(v) !in s.tasks && CloseMarkTask(v) !in s.tasks && TeardownTask(v) !in s.tasks
  {
    hide Protocol, Once, LetGo, Agreed, Rooms.Coherent, LeftRooms, DrainFrames, TasksMatch, TasksDistinct;
  }

  lemma AttachHomes(s: State, a: nat)
    requires Inv(s) && Handover(s) && IsPending(s, a) && s.attempts[a].asked && s.attempts[a].server == None
    ensures Homes(SetAttempt(Spawn(s, s.attempts[a].client), a, s.attempts[a].(server := Some(|s.servers|))))
  {
    hide Outcomes, Protocol, Once, LetGo, Provisional, Claims, Waits, Marks, Fifo, Membership;
    var q := SetAttempt(Spawn(s, s.attempts[a].client), a, s.attempts[a].(server := Some(|s.servers|)));
    forall w | 0 <= w < |q.servers| && w !in q.rooms.cleaned ensures HomeOf(q.clients, q.attempts, q.servers, q.stack, w) {
      if w < |s.servers| { assert HomeOf(s.clients, s.attempts, s.servers, s.stack, w); }
    }
  }

  lemma AttachProvisional(s: State, a: nat)
    requires Inv(s) && Handover(s) && IsPending(s, a) && s.attempts[a].asked && s.attempts[a].server == None
    ensures Provisional(SetAttempt(Spawn(s, s.attempts[a].client), a, s.attempts[a].(server := Some(|s.servers|))))
  {
    FreshFacts(s, |s.servers|);
    hide Outcomes, Protocol, Once, LetGo, Homes, Claims, Waits, Marks, Fifo, Membership, GroupOf;
    var q := SetAttempt(Spawn(s, s.attempts[a].client), a, s.attempts[a].(server := Some(|s.servers|)));
    forall b | 0 <= b < |q.attempts| && q.attempts[b].server.Some? && NotYetDone(q.attempts, q.tasks, b)
      ensures Unadmitted(q.clients, q.attempts, q.servers, q.rooms, q.stack, b)
    {
      if b != a { assert Unadmitted(s.clients, s.attempts, s.servers, s.rooms, s.stack, b); }
    }
  }

  lemma AttachClaims(s: State, a: nat)
    requires Inv(s) && Handover(s) && IsPending(s, a) && s.attempts[a].asked && s.attempts[a].server == None
    ensures var q := SetAttempt(Spawn(s, s.attempts[a].client), a, s.attempts[a].(server := Some(|s.servers|)));
            Claims(q) && Waits(q) && Marks(q)
  {
    FreshFacts(s, |s.servers|);
    AttachFrames(s, a);
    hide Inv, Homes, Provisional, Fifo, StackDoomed, NeverAfter, GroupOf;
    var q := SetAttempt(Spawn(s, s.attempts[a].client), a, s.attempts[a].(server := Some(|s.servers|)));
    forall w: nat | Doomed(q.servers, q.tasks, q.stack, w) ensures Claimed(q.clients, q.attempts, q.servers, q.stack, w) {
      assert Claimed(s.clients, s.attempts, s.servers, s.stack, w);
      forall b: nat | Announced(q.attempts, q.servers, q.stack, b, w) ensures q.attempts[b].server == Some(w) {
        assert Announced(s.attempts, s.servers, s.stack, b, w);
      }
    }
    AttachWaits(s, q, a);
  }

  lemma AttachFrames(s: State, a: nat)
    requires Inv(s) && IsPending(s, a) && s.attempts[a].server == None
    ensures AfterConnection(a) !in s.stack && !DoneQueued(s.tasks, a)
  {
    hide Protocol, Membership, Once, LetGo, Linked, OwnServers, Agreed;
  }

  lemma AttachWaits(s: State, q: State, a: nat)
    requires Waits(s) && Marks(s) && a < |s.attempts| && s.attempts[a].phase == Pending
    requires s.attempts[a].asked && s.attempts[a].server == None && !DoneQueued(s.tasks, a)
    requires !StackDoomed(s.stack, |s.servers|) && MarkTask(|s.servers|) !in s.tasks && CloseMarkTask(|s.servers|) !in s.tasks
    requires q == SetAttempt(Spawn(s, s.attempts[a].client), a, s.attempts[a].(server := Some(|s.servers|)))
    ensures Waits(q) && Marks(q)
  {
    hide StackDoomed, NeverAfter;
    forall w: nat | StackDoomed(q.stack, w) ensures Waiting(q.attempts, q.servers, w) {
      assert Waiting(s.attempts, s.servers, w);
      forall b: nat | Rival(q.attempts, q.servers, b, w) ensures !q.attempts[b].asked {
        assert w < |s.servers| ==> Rival(s.attempts, s.servers, b, w);
      }
    }
    forall w: nat | MarkTask(w) in q.tasks ensures MarkedFirst(q.attempts, q.servers, q.tasks, w) {
      assert MarkedFirst(s.attempts, s.servers, s.tasks, w);
      forall b: nat, f | Rival(q.attempts, q.servers, b, w) ensures NeverAfter(q.tasks, MarkTask(w), DoneTask(b, f)) {
        assert w < |s.servers| ==> Rival(s.attempts, s.servers, b, w);
      }
    }
  }

  lemma AttachFifo(s: State, a: nat)
    requires Inv(s) && Handover(s) && IsPending(s, a) && s.attempts[a].asked && s.attempts[a].server == None
    ensures Fifo(SetAttempt(Spawn(s, s.attempts[a].client), a, s.attempts[a].(server := Some(|s.servers|))))
  {
    FreshFacts(s, |s.servers|);
    OnlyPending(s, a);
    hide Inv, Homes, Provisional, Claims, Waits, Marks, StackDoomed, NeverAfter, GroupOf, InClean, Lingering, PairFifo, DoneFifo;
    var q := SetAttempt(Spawn(s, s.attempts[a].client), a, s.attempts[a].(server := Some(|s.servers|)));
    forall b | 0 <= b < |q.attempts| && q.attempts[b].phase == Pending ensures PairFifo(q, b) && DoneFifo(q, b) {
      assert PairFifo(s, b) && DoneFifo(s, b);
      forall w: nat | Other(q.attempts, q.servers, q.rooms, b, w) ensures Other(s.attempts, s.servers, s.rooms, b, w) {}
      FewerOthers(s, q, b);
    }
  }

  lemma FewerOthers(s: State, q: State, b: nat)
    requires b < |s.attempts| == |q.attempts| && PairFifo(s, b) && DoneFifo(s, b)
    requires q.attempts[b].asked == s.attempts[b].asked && q.attempts[b].nested == s.attempts[b].nested
    requires q.attempts[b].client == s.attempts[b].client && q.stack == s.stack && q.tasks == s.tasks
    requires forall w: nat :: Other(q.attempts, q.servers, q.rooms, b, w) ==> Other(s.attempts, s.servers, s.rooms, b, w)
    ensures PairFifo(q, b) && DoneFifo(q, b)
  {
    hide Other, NeverAfter, InClean;
  }

  lemma OnlyPending(s: State, a: nat)
    requires Inv(s) && IsPending(s, a)
    ensures forall b :: 0 <= b < |s.attempts| && s.attempts[b].phase == Pending && b != a ==>
              s.attempts[b].client != s.attempts[a].client
  {
    hide Outcomes, Protocol, Membership, Once, LetGo;
  }

  lemma SpareFewer(s: State, a: nat)
    requires Inv(s) && Handover(s) && IsPending(s, a)
    ensures var v := |s.servers|; Handover(Discard(Spawn(s, s.attempts[a].client), v))
  {
    var v := |s.servers|;
    FreshFacts(s, v);
    var p := Spawn(s, s.attempts[a].client);
    var q := Discard(p, v);
    assert Rooms.Coherent(s.rooms);
    CleanupEffect(s.rooms, v);
    hide Inv, StackDoomed, NeverAfter, GroupOf, InClean, Rooms.Cleanup, Rooms.Coherent;
    SpareHomes(s, q);
    SpareWaits(s, q);
    SpareFifo(s, q);
    hide Homes, Provisional, Claims, Waits, Marks, Fifo;
  }

  /** One more server socket, already discarded. */
  ghost predicate Spare(s: State, q: State) {
    var v := |s.servers|;
    && q.clients == s.clients && q.attempts == s.attempts && q.tasks == s.tasks && q.stack == s.stack && q.closed == s.closed
    && |q.servers| == v + 1 && (forall w :: 0 <= w < v ==> q.servers[w] == s.servers[w]) && !q.servers[v].closing
    && q.rooms.cleaned == s.rooms.cleaned + {v} && q.rooms.draining == s.rooms.draining
    && q.rooms.roster == s.rooms.roster - {v} && v !in s.rooms.draining && v !in s.rooms.roster && RosterLive(q.rooms)
    && (forall c :: 0 <= c < |s.clients| ==> s.clients[c].server != Some(v))
    && (forall b :: 0 <= b < |s.attempts| ==> s.attempts[b].server != Some(v))
    && !StackDoomed(s.stack, v) && MarkTask(v) !in s.tasks && CloseMarkTask(v) !in s.tasks
  }

  lemma SpareHomes(s: State, q: State)
    requires Homes(s) && Provisional(s) && Spare(s, q)
    ensures Homes(q) && Provisional(q)
  {
    hide GroupOf, StackDoomed;
    forall b | 0 <= b < |q.attempts| && q.attempts[b].server.Some? && NotYetDone(q.attempts, q.tasks, b)
      ensures Unadmitted(q.clients, q.attempts, q.servers, q.rooms, q.stack, b)
    {
      assert Unadmitted(s.clients, s.attempts, s.servers, s.rooms, s.stack, b);
    }
    forall w | 0 <= w < |q.servers| && w !in q.rooms.cleaned ensures HomeOf(q.clients, q.attempts, q.servers, q.stack, w) {
      assert HomeOf(s.clients, s.attempts, s.servers, s.stack, w);
    }
  }

  lemma SpareWaits(s: State, q: State)
    requires Claims(s) && Waits(s) && Marks(s) && Spare(s, q)
    ensures Claims(q) && Waits(q) && Marks(q)
  {
    hide StackDoomed, NeverAfter;
    forall w: nat | Doomed(q.servers, q.tasks, q.stack, w) ensures Claimed(q.clients, q.attempts, q.servers, q.stack, w) {
      assert Claimed(s.clients, s.attempts, s.servers, s.stack, w);
      forall b: nat | Announced(q.attempts, q.servers, q.stack, b, w) ensures q.attempts[b].server == Some(w) {
        assert Announced(s.attempts, s.servers, s.stack, b, w);
      }
    }
    forall w: nat | StackDoomed(q.stack, w) ensures Waiting(q.attempts, q.servers, w) {
      assert Waiting(s.attempts, s.servers, w);
      forall b: nat | Rival(q.attempts, q.servers, b, w) ensures !q.attempts[b].asked {
        assert w < |s.servers| ==> Rival(s.attempts, s.servers, b, w);
      }
    }
    forall w: nat | MarkTask(w) in q.tasks ensures MarkedFirst(q.attempts, q.servers, q.tasks, w) {
      assert MarkedFirst(s.attempts, s.servers, s.tasks, w);
      forall b: nat, f | Rival(q.attempts, q.servers, b, w) ensures NeverAfter(q.tasks, MarkTask(w), DoneTask(b, f)) {
        assert w < |s.servers| ==> Rival(s.attempts, s.servers, b, w);
      }
    }
  }

  lemma SpareFifo(s: State, q: State)
    requires Fifo(s) && Spare(s, q)
    ensures Fifo(q)
  {
    hide StackDoomed, NeverAfter, InClean;
    forall b | 0 <= b < |q.attempts| && q.attempts[b].phase == Pending ensures PairFifo(q, b) && DoneFifo(q, b) {
      assert PairFifo(s, b) && DoneFifo(s, b);
      forall w: nat | Other(q.attempts, q.servers, q.rooms, b, w) ensures Other(s.attempts, s.servers, s.rooms, b, w) {}
    }
  }

  lemma AttachHandover(s: State, a: nat)
    requires Inv(s) && Handover(s) && IsPending(s, a) && s.attempts[a].asked && s.attempts[a].server == None
    ensures Handover(SetAttempt(Spawn(s, s.attempts[a].client), a, s.attempts[a].(server := Some(|s.servers|))))
  {
    AttachHomes(s, a);
    AttachProvisional(s, a);
    AttachClaims(s, a);
    AttachFifo(s, a);
    hide Inv, Homes, Provisional, Claims, Waits, Marks, Fifo;
  }

  lemma AuthenticateHandover(s: State, a: nat)
    requires Inv(s) && Handover(s) && a < |s.attempts|
    ensures Handover(AuthenticateCall(s, a))
  {
    hide Inv, Handover;
    if !s.attempts[a].asked || !IsPending(s, a) {
    } else if SpaceClosed(s, a) {
      RejectHandover(s, a, true);
    } else if s.attempts[a].server.Some? {
      SpareFewer(s, a);
    } else {
      AttachHandover(s, a);
    }
  }
}
