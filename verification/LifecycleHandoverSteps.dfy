/**
  The handover invariant is kept by the calls of an application: connecting, cancelling,
  disconnecting and completing, each of which may queue a microtask or push a frame; and
  what it takes for a step to leave fewer sockets around.
 */
module LifecycleHandoverSteps {
  import opened Common
  import Rooms
  import opened Lifecycle
  import opened LifecycleStanding
  import opened LifecycleOutcomes
  import opened LifecycleTeardown
  import opened LifecycleMembership
  import opened LifecycleRuns
  import opened LifecycleHandover

  // Facts used throughout.

  lemma UntornFacts(s: State, v: nat)
    requires Inv(s) && v < |s.servers| && !s.servers[v].torn
    ensures !InClean(s.stack, v) && TeardownTask(v) !in s.tasks && !InEnded(s.stack, v)
    ensures v !in s.rooms.draining && !Left(s.log, v)
  {
    hide Standing, Once, LetGo, Leaving, Left, Rooms.Coherent;
  }

  lemma TornFacts(s: State, v: nat)
    requires Inv(s) && v < |s.servers| && s.servers[v].torn && Lingering(s.rooms, v)
    ensures TeardownTask(v) in s.tasks || InClean(s.stack, v)
  {
    hide Standing, Once, LetGo, Leaving, Left, Rooms.Coherent;
  }

  lemma CleanFacts(s: State, v: nat)
    requires Inv(s) && InClean(s.stack, v)
    ensures v < |s.servers| && s.servers[v].torn
  {
    hide Standing, Once, LetGo, Leaving, Left, Rooms.Coherent;
  }

  lemma DrainingFacts(s: State, v: nat)
    requires Inv(s) && v in s.rooms.draining
    ensures InClean(s.stack, v) && v in s.rooms.cleaned
  {
    hide Standing, Once, LetGo, Leaving, Left, Outcomes, Protocol, FramesInRange;
    CoherentDraining(s.rooms);
  }

  lemma LeftFacts(s: State, v: nat)
    requires Inv(s) && InEnded(s.stack, v)
    ensures !Lingering(s.rooms, v) && v < |s.servers|
  {
    hide Standing, Once, LetGo, Leaving, Left, Outcomes, Rooms.Coherent;
  }

  /** Where another socket of a pending attempt's client can be. */
  lemma OtherHome(s: State, a: nat, v: nat)
    requires Inv(s) && Handover(s) && a < |s.attempts| && s.attempts[a].phase == Pending
    requires Other(s.attempts, s.servers, s.rooms, a, v)
    ensures !s.clients[s.attempts[a].client].connected
    ensures InClean(s.stack, v) || Tail(s.attempts[a].client) in s.stack || s.servers[v].torn
    ensures v !in s.rooms.cleaned ==> s.clients[s.attempts[a].client].server == Some(v)
  {
    hide Outcomes, Protocol, Once, LetGo, Provisional, Claims, Waits, Marks, Fifo, FramesInRange, Membership;
    var c := s.attempts[a].client;
    assert ClientAgrees(s.clients, s.attempts, s.pending, s.connected, c);
    if v in s.rooms.cleaned {
      DrainingFacts(s, v);
    } else {
      assert HomeOf(s.clients, s.attempts, s.servers, s.stack, v);
    }
  }

  // Connect.

  lemma ConnectHomes(s: State, c: nat)
    requires Inv(s) && Handover(s) && c < |s.clients|
    ensures Homes(ConnectCall(s, c))
  {
    hide Outcomes, Protocol, Once, LetGo, Provisional, Claims, Waits, Marks, Fifo, Membership;
    var q := ConnectCall(s, c);
    assert ClientAgrees(s.clients, s.attempts, s.pending, s.connected, c);
    forall v | 0 <= v < |q.servers| && v !in q.rooms.cleaned
      ensures HomeOf(q.clients, q.attempts, q.servers, q.stack, v)
    {
      assert HomeOf(s.clients, s.attempts, s.servers, s.stack, v);
    }
  }

  lemma ConnectProvisional(s: State, c: nat)
    requires Inv(s) && Handover(s) && c < |s.clients|
    ensures Provisional(ConnectCall(s, c)) && RosterLive(ConnectCall(s, c).rooms)
  {
    hide Outcomes, Protocol, Once, LetGo, Homes, Claims, Waits, Marks, Fifo, Membership, GroupOf;
    var q := ConnectCall(s, c);
    forall a | 0 <= a < |q.attempts| && q.attempts[a].server.Some? && NotYetDone(q.attempts, q.tasks, a)
      ensures Unadmitted(q.clients, q.attempts, q.servers, q.rooms, q.stack, a)
    {
      assert Unadmitted(s.clients, s.attempts, s.servers, s.rooms, s.stack, a);
    }
  }

  lemma ConnectClaims(s: State, c: nat)
    requires Inv(s) && Handover(s) && c < |s.clients|
    ensures Claims(ConnectCall(s, c)) && Marks(ConnectCall(s, c))
  {
    hide Outcomes, Protocol, Once, LetGo, Homes, Provisional, Waits, Fifo, Membership, StackDoomed;
    var q := ConnectCall(s, c);
    if q != s {
      assert AfterConnection(|s.attempts|) !in s.stack by { NoFrameOf(s, |s.attempts|); }
      forall v: nat | Doomed(q.servers, q.tasks, q.stack, v) ensures Claimed(q.clients, q.attempts, q.servers, q.stack, v) {
        assert Claimed(s.clients, s.attempts, s.servers, s.stack, v);
        forall a: nat | Announced(q.attempts, q.servers, q.stack, a, v) ensures q.attempts[a].server == Some(v) {
          assert Announced(s.attempts, s.servers, s.stack, a, v);
        }
      }
    }
  }

  lemma NoFrameOf(s: State, a: nat)
    requires Outcomes(s) && a >= |s.attempts|
    ensures AfterConnection(a) !in s.stack && !DoneQueued(s.tasks, a) && PairTask(a) !in s.tasks
  {}

  lemma ConnectWaits(s: State, c: nat)
    requires Inv(s) && Handover(s) && c < |s.clients|
    ensures Waits(ConnectCall(s, c))
  {
    hide Outcomes, Protocol, Once, LetGo, Homes, Provisional, Claims, Marks, Fifo, Membership, StackDoomed, NeverAfter;
    var q := ConnectCall(s, c);
    if q != s {
      var n := |s.attempts|;
      NoFrameOf(s, n);
      forall v: nat | StackDoomed(q.stack, v) ensures Waiting(q.attempts, q.servers, v) {
        assert Waiting(s.attempts, s.servers, v);
        forall a: nat | Rival(q.attempts, q.servers, a, v) ensures !q.attempts[a].asked {
          assert a < n ==> Rival(s.attempts, s.servers, a, v);
        }
      }
      forall v: nat | MarkTask(v) in q.tasks ensures MarkedFirst(q.attempts, q.servers, q.tasks, v) {
        assert MarkedFirst(s.attempts, s.servers, s.tasks, v);
        forall a: nat, f | Rival(q.attempts, q.servers, a, v) ensures NeverAfter(q.tasks, MarkTask(v), DoneTask(a, f)) {
          if a < n { assert Rival(s.attempts, s.servers, a, v); } else { NeverIn(s.tasks, MarkTask(v), DoneTask(a, f)); }
          NeverAfterAppend(s.tasks, MarkTask(v), DoneTask(a, f), PairTask(n));
        }
      }
    }
  }

  lemma NeverIn(tasks: seq<Task>, x: Task, y: Task)
    requires y !in tasks
    ensures NeverAfter(tasks, x, y)
  {}

  lemma ConnectFifo(s: State, c: nat)
    requires Inv(s) && Handover(s) && c < |s.clients|
    ensures Fifo(ConnectCall(s, c))
  {
    hide Outcomes, Protocol, Once, LetGo, Homes, Provisional, Claims, Marks, Waits, Membership, NeverAfter, InClean;
    var q := ConnectCall(s, c);
    if q != s {
      var n := |s.attempts|;
      NoFrameOf(s, n);
      forall a | 0 <= a < |q.attempts| && q.attempts[a].phase == Pending ensures PairFifo(q, a) && DoneFifo(q, a) {
        if a < n {
          assert PairFifo(s, a) && DoneFifo(s, a);
          forall v: nat ensures Other(q.attempts, q.servers, q.rooms, a, v) <==> Other(s.attempts, s.servers, s.rooms, a, v) {}
          forall v: nat | NeverAfter(s.tasks, TeardownTask(v), PairTask(a)) ensures NeverAfter(q.tasks, TeardownTask(v), PairTask(a)) {
            NeverAfterAppend(s.tasks, TeardownTask(v), PairTask(a), PairTask(n));
          }
          forall v: nat, f | NeverAfter(s.tasks, TeardownTask(v), DoneTask(a, f))
            ensures NeverAfter(q.tasks, TeardownTask(v), DoneTask(a, f))
          {
            NeverAfterAppend(s.tasks, TeardownTask(v), DoneTask(a, f), PairTask(n));
          }
        } else {
          forall v: nat ensures NeverAfter(q.tasks, TeardownTask(v), PairTask(a)) { LastNeverAfter(s.tasks, TeardownTask(v), PairTask(a)); }
        }
      }
    }
  }

  lemma LastNeverAfter(tasks: seq<Task>, x: Task, y: Task)
    requires y !in tasks
    ensures NeverAfter(tasks + [y], x, y)
  {}

  lemma ConnectHandover(s: State, c: nat)
    requires Inv(s) && Handover(s) && c < |s.clients|
    ensures Handover(ConnectCall(s, c))
  {
    ConnectHomes(s, c);
    ConnectProvisional(s, c);
    ConnectClaims(s, c);
    ConnectWaits(s, c);
    ConnectFifo(s, c);
  }

  // Steps after which there are fewer pending attempts, connections and lingering sockets.

  ghost predicate FewerAttempts(attempts: seq<Attempt>, next: seq<Attempt>) {
    && |next| == |attempts|
    && forall a :: 0 <= a < |attempts| ==>
         && next[a].client == attempts[a].client && next[a].server == attempts[a].server
         && next[a].asked == attempts[a].asked && next[a].completed == attempts[a].completed
         && next[a].nested == attempts[a].nested
         && (next[a].phase == Pending ==> attempts[a].phase == Pending)
  }

  ghost predicate FewerClients(clients: seq<Client>, next: seq<Client>) {
    && |next| == |clients|
    && forall c :: 0 <= c < |clients| ==>
         && next[c].server == clients[c].server && next[c].space == clients[c].space
         && (next[c].connected ==> clients[c].connected)
  }

  ghost predicate FewerRooms(attempts: seq<Attempt>, r: Rooms.State, q: Rooms.State) {
    && (forall v: nat :: Lingering(q, v) ==> Lingering(r, v))
    && q.roster <= r.roster && RosterLive(q)
    && (forall a :: 0 <= a < |attempts| && attempts[a].phase == Pending && attempts[a].server.Some? ==>
          (attempts[a].server.value in q.cleaned ==> attempts[a].server.value in r.cleaned))
  }

  /** Only a `Tail` of a client without a pending attempt may be new. */
  ghost predicate FewerFrames(attempts: seq<Attempt>, stack: seq<Frame>, next: seq<Frame>) {
    forall f: Frame :: Relevant(f) && f !in stack && f in next ==>
      f.Tail? && forall a :: 0 <= a < |attempts| && attempts[a].phase == Pending ==> attempts[a].client != f.client
  }

  ghost predicate Fewer(s: State, q: State) {
    && FewerAttempts(s.attempts, q.attempts) && FewerClients(s.clients, q.clients)
    && SameServers(s.servers, q.servers) && s.closed <= q.closed
    && FewerRooms(q.attempts, s.rooms, q.rooms) && q.tasks == s.tasks
    && (forall f: Frame :: f in s.stack ==> f in q.stack)
    && FewerFrames(q.attempts, s.stack, q.stack)
    && (forall f: Frame :: f in q.stack && f.Group? ==> f in s.stack)
  }

  lemma FewerSame(s: State, q: State)
    requires Fewer(s, q)
    ensures forall v: nat :: GroupOf(q.stack, v) <==> GroupOf(s.stack, v)
    ensures forall v: nat :: InClean(q.stack, v) <==> InClean(s.stack, v)
    ensures forall v: nat :: StackDoomed(q.stack, v) <==> StackDoomed(s.stack, v)
    ensures forall a: nat :: AfterConnection(a) in q.stack <==> AfterConnection(a) in s.stack
  {}

  lemma FewerProvisional(s: State, q: State)
    requires Fewer(s, q) && Provisional(s)
    ensures Provisional(q)
  {
    FewerSame(s, q);
    forall a | 0 <= a < |q.attempts| && q.attempts[a].server.Some? && NotYetDone(q.attempts, q.tasks, a)
      ensures Unadmitted(q.clients, q.attempts, q.servers, q.rooms, q.stack, a)
    {
      assert Unadmitted(s.clients, s.attempts, s.servers, s.rooms, s.stack, a);
    }
  }

  lemma FewerClaims(s: State, q: State)
    requires Fewer(s, q) && Claims(s) && Marks(s)
    ensures Claims(q) && Marks(q)
  {
    FewerSame(s, q);
    hide StackDoomed, Lingering;
    forall v: nat | Doomed(q.servers, q.tasks, q.stack, v) ensures Claimed(q.clients, q.attempts, q.servers, q.stack, v) {
      assert Claimed(s.clients, s.attempts, s.servers, s.stack, v);
      forall a: nat | Announced(q.attempts, q.servers, q.stack, a, v) ensures q.attempts[a].server == Some(v) {
        assert Announced(s.attempts, s.servers, s.stack, a, v);
      }
    }
  }

  lemma FewerWaits(s: State, q: State)
    requires Fewer(s, q) && Waits(s)
    ensures Waits(q)
  {
    FewerSame(s, q);
    hide StackDoomed, NeverAfter;
    forall v: nat | StackDoomed(q.stack, v) ensures Waiting(q.attempts, q.servers, v) {
      assert Waiting(s.attempts, s.servers, v);
      forall a: nat | Rival(q.attempts, q.servers, a, v) ensures !q.attempts[a].asked {
        assert Rival(s.attempts, s.servers, a, v);
      }
    }
    forall v: nat | MarkTask(v) in q.tasks ensures MarkedFirst(q.attempts, q.servers, q.tasks, v) {
      assert MarkedFirst(s.attempts, s.servers, s.tasks, v);
      forall a: nat, f | Rival(q.attempts, q.servers, a, v) ensures NeverAfter(q.tasks, MarkTask(v), DoneTask(a, f)) {
        assert Rival(s.attempts, s.servers, a, v);
      }
    }
  }

  lemma FewerFifo(s: State, q: State)
    requires Fewer(s, q) && Fifo(s)
    ensures Fifo(q)
  {
    FewerSame(s, q);
    hide NeverAfter, InClean, Lingering;
    forall a | 0 <= a < |q.attempts| && q.attempts[a].phase == Pending ensures PairFifo(q, a) && DoneFifo(q, a) {
      assert PairFifo(s, a) && DoneFifo(s, a);
      forall v: nat ensures Other(q.attempts, q.servers, q.rooms, a, v) ==> Other(s.attempts, s.servers, s.rooms, a, v) {}
      assert Tail(q.attempts[a].client) in q.stack ==> Tail(q.attempts[a].client) in s.stack;
    }
  }

  lemma FewerHandover(s: State, q: State)
    requires Fewer(s, q) && Handover(s) && Homes(q)
    ensures Handover(q)
  {
    FewerProvisional(s, q);
    FewerClaims(s, q);
    FewerWaits(s, q);
    FewerFifo(s, q);
    hide Homes, Provisional, Claims, Waits, Marks, Fifo;
  }

  // Abandoning an attempt.

  lemma CleanupEffect(r: Rooms.State, v: nat)
    requires Rooms.Coherent(r) && RosterLive(r)
    ensures var q := Rooms.Cleanup(r, v);
            && q.cleaned == r.cleaned + {v} && q.draining == r.draining
            && q.roster == (if v in r.cleaned then r.roster else r.roster - {v})
            && RosterLive(q)
            && (forall w: nat :: Lingering(q, w) ==> Lingering(r, w))
  {
    hide Rooms.NoEmptyRoom, Rooms.Mirrored, Rooms.Viewed;
  }

  lemma AbandonFewer(s: State, a: nat, phase: Phase)
    requires Inv(s) && Handover(s) && IsPending(s, a) && Over(phase)
    ensures Fewer(s, Abandon(s, a, phase))
  {
    hide Outcomes, Protocol, Once, LetGo, Homes, Provisional, Claims, Marks, Waits, Fifo, Rooms.Cleanup, Rooms.Coherent,
         Lingering, RosterLive, Agreed, FramesInRange;
    var v := s.attempts[a].server;
    if v.Some? { CleanupEffect(s.rooms, v.value); }
  }

  lemma AbandonHomes(s: State, a: nat, phase: Phase)
    requires Inv(s) && Handover(s) && IsPending(s, a) && Over(phase)
    ensures Homes(Abandon(s, a, phase))
  {
    hide Outcomes, Protocol, Once, LetGo, Provisional, Claims, Marks, Waits, Fifo, Rooms.Cleanup, Rooms.Coherent, FramesInRange;
    var q := Abandon(s, a, phase);
    var w := s.attempts[a].server;
    if w.Some? { CleanupEffect(s.rooms, w.value); }
    forall v | 0 <= v < |q.servers| && v !in q.rooms.cleaned
      ensures HomeOf(q.clients, q.attempts, q.servers, q.stack, v)
    {
      assert HomeOf(s.clients, s.attempts, s.servers, s.stack, v);
    }
  }

  lemma AbandonHandover(s: State, a: nat, phase: Phase)
    requires Inv(s) && Handover(s) && IsPending(s, a) && Over(phase)
    ensures Handover(Abandon(s, a, phase))
  {
    hide Inv, Handover, Fewer, Homes;
    AbandonFewer(s, a, phase);
    AbandonHomes(s, a, phase);
    FewerHandover(s, Abandon(s, a, phase));
  }

  lemma CancelHandover(s: State, c: nat)
    requires Inv(s) && Handover(s) && c < |s.clients|
    ensures Handover(Cancel(s, c))
  {
    hide Inv, Handover, Abandon;
    var attempt := s.clients[c].attempt;
    if attempt.Some? && IsPending(s, attempt.value) { AbandonHandover(s, attempt.value, Cancelled); }
  }

  // Tasks that the invariant does not speak of.

  lemma ErrorTaskHandover(s: State, t: Task)
    requires Handover(s) && t.ErrorTask?
    ensures Handover(Enqueue(s, t))
  {
    ErrorTaskWaits(s, t);
    ErrorTaskFifo(s, t);
    ErrorTaskRest(s, t);
    hide Homes, Provisional, Claims, Waits, Marks, Fifo;
  }

  lemma ErrorTaskRest(s: State, t: Task)
    requires Handover(s) && t.ErrorTask?
    ensures var q := Enqueue(s, t); Homes(q) && Provisional(q) && Claims(q) && Marks(q)
  {
    hide Waits, Fifo, StackDoomed, GroupOf;
    var q := Enqueue(s, t);
    forall a | 0 <= a < |q.attempts| && q.attempts[a].server.Some? && NotYetDone(q.attempts, q.tasks, a)
      ensures Unadmitted(q.clients, q.attempts, q.servers, q.rooms, q.stack, a)
    {
      assert Unadmitted(s.clients, s.attempts, s.servers, s.rooms, s.stack, a);
    }
  }

  lemma ErrorTaskWaits(s: State, t: Task)
    requires Waits(s) && t.ErrorTask?
    ensures Waits(Enqueue(s, t))
  {
    var q := Enqueue(s, t);
    hide NeverAfter, StackDoomed;
    forall v: nat | MarkTask(v) in q.tasks ensures MarkedFirst(q.attempts, q.servers, q.tasks, v) {
      assert MarkedFirst(s.attempts, s.servers, s.tasks, v);
      forall a: nat, f | Rival(q.attempts, q.servers, a, v) ensures NeverAfter(q.tasks, MarkTask(v), DoneTask(a, f)) {
        NeverAfterAppend(s.tasks, MarkTask(v), DoneTask(a, f), t);
      }
    }
  }

  /** A queue that keeps every order and every teardown. */
  ghost predicate KeepsOrder(tasks: seq<Task>, next: seq<Task>) {
    && (forall x: Task, y: Task :: NeverAfter(tasks, x, y) && x.TeardownTask? ==> NeverAfter(next, x, y))
    && (forall x: Task :: x in tasks && x.TeardownTask? ==> x in next)
  }

  lemma KeepsOrderFifo(s: State, tasks: seq<Task>)
    requires Fifo(s) && KeepsOrder(s.tasks, tasks)
    ensures Fifo(s.(tasks := tasks))
  {
    hide NeverAfter, InClean, Lingering;
    var q := s.(tasks := tasks);
    forall a | 0 <= a < |q.attempts| && q.attempts[a].phase == Pending ensures PairFifo(q, a) && DoneFifo(q, a) {
      assert PairFifo(s, a) && DoneFifo(s, a);
      forall v: nat | Other(q.attempts, q.servers, q.rooms, a, v)
        ensures !q.attempts[a].nested ==> !q.attempts[a].asked && NeverAfter(q.tasks, TeardownTask(v), PairTask(a))
        ensures q.attempts[a].asked ==>
                  && (InClean(q.stack, v) || TeardownTask(v) in q.tasks)
                  && NeverAfter(q.tasks, TeardownTask(v), DoneTask(a, true))
                  && NeverAfter(q.tasks, TeardownTask(v), DoneTask(a, false))
      {
        assert Other(s.attempts, s.servers, s.rooms, a, v);
      }
    }
  }

  lemma ErrorTaskFifo(s: State, t: Task)
    requires Fifo(s) && !t.TeardownTask?
    ensures Fifo(Enqueue(s, t))
  {
    hide Fifo, NeverAfter;
    forall x: Task, y: Task | NeverAfter(s.tasks, x, y) && x.TeardownTask? ensures NeverAfter(s.tasks + [t], x, y) {
      NeverAfterAppend(s.tasks, x, y, t);
    }
    KeepsOrderFifo(s, s.tasks + [t]);
  }

  lemma RejectHandover(s: State, a: nat, encodes: bool)
    requires Inv(s) && Handover(s)
    ensures Handover(Reject(s, a, encodes))
  {
    hide Inv, Handover, Abandon;
    if IsPending(s, a) {
      AbandonHandover(s, a, Rejected(encodes));
      if encodes { ErrorTaskHandover(Abandon(s, a, Rejected(encodes)), ErrorTask(a)); }
    }
  }

  // A connection ends.

  lemma MarkFewer(s: State, c: nat, frames: seq<Frame>)
    requires Inv(s) && Handover(s) && c < |s.clients| && s.clients[c].connected
    requires frames == [] || frames == [Tail(c)]
    ensures var q := MarkDisconnected(s, c); Fewer(s, q.(stack := frames + q.stack))
  {
    hide Outcomes, Protocol, Once, LetGo, Homes, Provisional, Claims, Marks, Waits, Fifo, Membership;
    var q := MarkDisconnected(s, c);
    assert ClientAgrees(s.clients, s.attempts, s.pending, s.connected, c);
    forall a | 0 <= a < |q.attempts| && q.attempts[a].phase == Pending ensures q.attempts[a].client != c {}
  }

  lemma DisconnectHomes(s: State, c: nat)
    requires Inv(s) && Handover(s) && c < |s.clients| && s.clients[c].connected
    ensures Homes(Push(MarkDisconnected(s, c), Tail(c)))
  {
    hide Outcomes, Protocol, Once, LetGo, Provisional, Claims, Marks, Waits, Fifo, Membership;
    var q := Push(MarkDisconnected(s, c), Tail(c));
    assert ClientAgrees(s.clients, s.attempts, s.pending, s.connected, c);
    forall v | 0 <= v < |q.servers| && v !in q.rooms.cleaned
      ensures HomeOf(q.clients, q.attempts, q.servers, q.stack, v)
    {
      assert HomeOf(s.clients, s.attempts, s.servers, s.stack, v);
    }
  }

  lemma DisconnectHandover(s: State, c: nat)
    requires Inv(s) && Handover(s) && c < |s.clients|
    ensures Handover(DisconnectCall(s, c))
  {
    hide Inv, Handover, Fewer, Homes, Cancel, MarkDisconnected;
    if s.clients[c].connected {
      MarkFewer(s, c, [Tail(c)]);
      DisconnectHomes(s, c);
      FewerHandover(s, Push(MarkDisconnected(s, c), Tail(c)));
    } else {
      CancelHandover(s, c);
    }
  }
}
