/**
  The handover invariant is kept by whatever follows a callback into application code: the
  frames of a teardown, of a group operation, of an establishment, and the end of the
  client's own `disconnect`.
 */
module LifecycleHandoverFrames {
  import opened Common
  import Rooms
  import opened Lifecycle
  import opened LifecycleStanding
  import opened LifecycleOutcomes
  import opened LifecycleTeardown
  import opened LifecycleMembership
  import opened LifecycleRuns
  import opened LifecycleHandover
  import opened LifecycleHandoverSteps
  import opened LifecycleHandoverTeardown

  // Group operations.

  lemma OwnerReady(s: State, v: nat)
    requires Inv(s) && Handover(s) && v < |s.servers| && v in s.rooms.roster && Owns(s, s.servers[v].client, v)
    ensures Claimed(s.clients, s.attempts, s.servers, s.stack, v) && Waiting(s.attempts, s.servers, v)
  {
    hide Outcomes, Protocol, Once, LetGo, Membership, Homes, Provisional, Claims, Waits, Marks, NeverAfter, InClean, Lingering;
    var c := s.servers[v].client;
    assert ClientAgrees(s.clients, s.attempts, s.pending, s.connected, c);
    assert Lingering(s.rooms, v);
    forall a: nat | Announced(s.attempts, s.servers, s.stack, a, v) ensures s.attempts[a].server == Some(v) {
      assert DoneFifo(s, a);
      assert !Other(s.attempts, s.servers, s.rooms, a, v);
    }
  }

  lemma GroupFrames(stack: seq<Frame>, f: Frame)
    requires f.Group?
    ensures var next := [f] + stack;
            && (forall w: nat :: GroupOf(next, w) <==> GroupOf(stack, w) || w == f.initiator)
            && (forall w: nat :: StackDoomed(next, w) <==> StackDoomed(stack, w) || w == f.initiator)
            && (forall w: nat :: InClean(next, w) <==> InClean(stack, w))
            && (forall a: nat :: AfterConnection(a) in next <==> AfterConnection(a) in stack)
            && (forall c: nat :: Tail(c) in next <==> Tail(c) in stack)
  {
    var next := [f] + stack;
    forall g: Frame ensures g in next <==> g in stack || g == f {}
    forall w: nat ensures GroupOf(next, w) <==> GroupOf(stack, w) || w == f.initiator {
      if GroupOf(stack, w) {
        var g: Frame :| g in stack && g.Group? && g.initiator == w;
        assert g in next;
      }
      if w == f.initiator { assert f in next; }
    }
  }

  lemma GroupProvisional(s: State, f: Frame)
    requires Provisional(s) && f.Group? && Admitted(s.attempts, s.tasks, f.initiator)
    ensures Provisional(Push(s, f))
  {
    GroupFrames(s.stack, f);
    hide GroupOf;
    var q := Push(s, f);
    forall a | 0 <= a < |q.attempts| && q.attempts[a].server.Some? && NotYetDone(q.attempts, q.tasks, a)
      ensures Unadmitted(q.clients, q.attempts, q.servers, q.rooms, q.stack, a)
    {
      assert Unadmitted(s.clients, s.attempts, s.servers, s.rooms, s.stack, a);
    }
  }

  lemma GroupClaims(s: State, f: Frame)
    requires Claims(s) && Waits(s) && f.Group?
    requires Claimed(s.clients, s.attempts, s.servers, s.stack, f.initiator) && Waiting(s.attempts, s.servers, f.initiator)
    ensures Claims(Push(s, f)) && Waits(Push(s, f))
  {
    GroupFrames(s.stack, f);
    hide GroupOf, StackDoomed, NeverAfter;
    var q := Push(s, f);
    forall w: nat | Doomed(q.servers, q.tasks, q.stack, w) ensures Claimed(q.clients, q.attempts, q.servers, q.stack, w) {
      assert Claimed(s.clients, s.attempts, s.servers, s.stack, w);
      forall a: nat | Announced(q.attempts, q.servers, q.stack, a, w) ensures q.attempts[a].server == Some(w) {
        assert Announced(s.attempts, s.servers, s.stack, a, w);
      }
    }
  }

  lemma GroupFifo(s: State, f: Frame)
    requires Fifo(s) && Homes(s) && f.Group?
    ensures Fifo(Push(s, f)) && Homes(Push(s, f))
  {
    GroupFrames(s.stack, f);
    hide GroupOf, StackDoomed, NeverAfter, InClean, Lingering;
    var q := Push(s, f);
    forall a | 0 <= a < |q.attempts| && q.attempts[a].phase == Pending ensures PairFifo(q, a) && DoneFifo(q, a) {
      assert PairFifo(s, a) && DoneFifo(s, a);
      forall w: nat ensures Other(q.attempts, q.servers, q.rooms, a, w) <==> Other(s.attempts, s.servers, s.rooms, a, w) {}
    }
    forall w | 0 <= w < |q.servers| && w !in q.rooms.cleaned ensures HomeOf(q.clients, q.attempts, q.servers, q.stack, w) {
      assert HomeOf(s.clients, s.attempts, s.servers, s.stack, w);
    }
  }

  lemma GroupCallHandover(s: State, v: nat, order: seq<nat>)
    requires Inv(s) && Handover(s) && v < |s.servers|
    requires Owns(s, s.servers[v].client, v) ==> v in s.rooms.roster
    ensures Handover(GroupCall(s, v, order))
  {
    if Owns(s, s.servers[v].client, v) {
      OwnerReady(s, v);
      RosterAdmitted(s, v);
      hide Inv, Homes, Provisional, Claims, Waits, Marks, Fifo, Admitted, Claimed, Waiting;
      var f := Group(order, 0, v);
      GroupProvisional(s, f);
      GroupClaims(s, f);
      GroupFifo(s, f);
      MarksOfStack(s, [f] + s.stack);
    }
  }

  lemma MarksOfStack(s: State, stack: seq<Frame>)
    requires Marks(s)
    ensures Marks(s.(stack := stack))
  {}

  lemma CancelInv(s: State, c: nat)
    requires Inv(s) && c < |s.clients|
    ensures Inv(Cancel(s, c))
  {
    var q := Cancel(s, c);
    CancelStanding(s, c);
    OutcomeBottom(s);
    CancelQuiet(s, c);
    QuietKeeps(s, q);
    UniqueOf(s);
    CancelStill(s, c);
    StillKeeps(s, q);
    CancelCalm(s, c);
    CalmKeeps(s, q);
    CancelMoves(s, c);
    MovesKeepLetGo(s, q);
    hide Standing, Outcomes, Protocol, Membership, Once, LetGo;
  }

  lemma {:induction false} CancelOthersHandover(s: State, i: nat, manager: nat, v: nat)
    requires Inv(s) && Handover(s)
    ensures Handover(CancelOthers(s, i, manager, v))
    decreases |s.clients| - i
  {
    hide Inv, Handover;
    if i < |s.clients| {
      var q := if i in s.pending && s.clients[i].manager == manager && !Owns(s, i, v) then Cancel(s, i) else s;
      CancelHandover(s, i);
      CancelInv(s, i);
      CancelOthersHandover(q, i + 1, manager, v);
    }
  }

  /** Cancelling does not look at the stack. */
  lemma CancelStack(s: State, i: nat, stack: seq<Frame>)
    requires i < |s.clients|
    ensures Cancel(s.(stack := stack), i) == Cancel(s, i).(stack := stack)
  {}

  lemma {:induction false} CancelOthersStack(s: State, i: nat, manager: nat, v: nat, stack: seq<Frame>)
    ensures CancelOthers(s.(stack := stack), i, manager, v) == CancelOthers(s, i, manager, v).(stack := stack)
    ensures CancelOthers(s, i, manager, v).stack == s.stack
    decreases |s.clients| - i
  {
    if i < |s.clients| {
      var q := if i in s.pending && s.clients[i].manager == manager && !Owns(s, i, v) then Cancel(s, i) else s;
      CancelStack(s, i, stack);
      CancelStack(s, i, s.stack);
      assert q.stack == s.stack;
      CancelOthersStack(q, i + 1, manager, v, stack);
    }
  }

  /** The group frame is replaced by the next one, possibly under a teardown. */
  lemma SwapGroup(s: State, q: State, top: seq<Frame>, rest: seq<Frame>, f: Frame, g: Frame)
    requires f.Group? && g.Group? && f.initiator == g.initiator
    requires s.stack == top + ([f] + rest) && q == s.(stack := top + ([g] + rest))
    ensures Untouched(s, q)
  {
    forall h: Frame ensures h in s.stack <==> h in top || h == f || h in rest {}
    forall h: Frame ensures h in q.stack <==> h in top || h == g || h in rest {}
    forall v: nat ensures GroupOf(q.stack, v) <==> GroupOf(s.stack, v) {
      if GroupOf(s.stack, v) {
        var h: Frame :| h in s.stack && h.Group? && h.initiator == v;
        if h == f { assert g in q.stack; } else { assert h in q.stack; }
      }
      if GroupOf(q.stack, v) {
        var h: Frame :| h in q.stack && h.Group? && h.initiator == v;
        if h == g { assert f in s.stack; } else { assert h in s.stack; }
      }
    }
  }

  lemma MemberHandover(s: State, order: seq<nat>, next: nat, v: nat)
    requires Inv(s) && Handover(s) && s.stack != [] && s.stack[0] == Group(order, next, v) && v < |s.servers|
    requires next < |order|
    ensures Handover(GroupNext(s.(stack := s.stack[1..]), order, next, v))
  {
    var rest := s.stack[1..];
    var f, g := Group(order, next, v), Group(order, next + 1, v);
    var p := s.(stack := rest);
    var r := GroupNext(p, order, next, v);
    var c := order[next];
    assert s.stack == [f] + rest;
    if c < |s.clients| && s.clients[c].connected {
      MemberReady(s, c);
      hide Inv, Handover, Admitted, Claimed, Waiting, Untouched;
      var w := s.clients[c].server.value;
      var t := ServerDisconnectCall(s, w);
      ServerDisconnectHandover(s, w);
      var top := if s.servers[w].torn then [] else [Clean(w, true)];
      assert t.stack == top + ([f] + rest);
      assert r.stack == top + ([g] + rest);
      SwapGroup(t, r, top, rest, f, g);
      UntouchedHandover(t, r);
    } else {
      hide Inv, Handover, Untouched;
      assert r.stack == [] + ([g] + rest) && s.stack == [] + ([f] + rest);
      SwapGroup(s, r, [], rest, f, g);
      UntouchedHandover(s, r);
    }
  }

  lemma GroupDrops(s: State, top: seq<Frame>, rest: seq<Frame>, f: Frame)
    requires f.Group? && s.stack == top + ([f] + rest)
    ensures Drops(s, s.(stack := top + rest))
  {
    var q := s.(stack := top + rest);
    forall h: Frame ensures h in s.stack <==> h in top || h == f || h in rest {}
    forall h: Frame ensures h in q.stack <==> h in top || h in rest {}
  }

  lemma FinishHandover(s: State, order: seq<nat>, next: nat, v: nat)
    requires Inv(s) && Handover(s) && s.stack != [] && s.stack[0] == Group(order, next, v) && v < |s.servers|
    requires next >= |order|
    ensures Handover(GroupNext(s.(stack := s.stack[1..]), order, next, v))
  {
    hide Inv, CancelOthers, Admitted, Claimed, Waiting, Drops, Handover, GroupOf;
    var rest := s.stack[1..];
    var f := Group(order, next, v);
    assert s.stack == [f] + rest;
    var m := ManagerOf(s, v);
    CancelOthersHandover(s, 0, m, v);
    CancelOthersStack(s, 0, m, v, rest);
    var t := CancelOthers(s, 0, m, v);
    HeadGroup(t.stack);
    GroupReady(t, v);
    ServerDisconnectHandover(t, v);
    var u := ServerDisconnectCall(t, v);
    var top := if t.servers[v].torn then [] else [Clean(v, true)];
    assert u.stack == top + ([f] + rest);
    GroupDrops(u, top, rest, f);
    DropsHandover(u, top + rest);
    assert GroupNext(s.(stack := rest), order, next, v) == u.(stack := top + rest);
  }

  lemma HeadGroup(stack: seq<Frame>)
    requires stack != [] && stack[0].Group?
    ensures GroupOf(stack, stack[0].initiator)
  {
    assert stack[0] in stack;
  }

  lemma GroupNextHandover(s: State, order: seq<nat>, next: nat, v: nat)
    requires Inv(s) && Handover(s) && s.stack != [] && s.stack[0] == Group(order, next, v) && v < |s.servers|
    ensures Handover(GroupNext(s.(stack := s.stack[1..]), order, next, v))
  {
    hide Inv, Handover, GroupNext;
    if next < |order| { MemberHandover(s, order, next, v); } else { FinishHandover(s, order, next, v); }
  }

  // Cleanup.

  lemma CleanStackFacts(stack: seq<Frame>, g: Frame)
    requires stack != [] && IsClean(stack[0]) && (g.CleanEnd? || g.Ended?)
    requires g.server == stack[0].server && g.sync == stack[0].sync
    ensures var next := [g] + stack[1..];
            && (forall w: nat :: StackDoomed(next, w) <==> StackDoomed(stack, w))
            && (forall w: nat :: GroupOf(next, w) <==> GroupOf(stack, w))
            && (forall w: nat :: w != g.server || g.CleanEnd? ==> (InClean(next, w) <==> InClean(stack, w)))
            && (forall a: nat :: AfterConnection(a) in next <==> AfterConnection(a) in stack)
            && (forall c: nat :: Tail(c) in next <==> Tail(c) in stack)
  {
    PopMembers(stack);
    var next := [g] + stack[1..];
    forall h: Frame ensures h in next <==> h == g || h in stack[1..] {}
    if g.sync { assert StackDoomed(stack, g.server); }
    forall w: nat ensures GroupOf(next, w) <==> GroupOf(stack, w) {
      if GroupOf(next, w) { var h: Frame :| h in next && h.Group? && h.initiator == w; assert h in stack; }
      if GroupOf(stack, w) { var h: Frame :| h in stack && h.Group? && h.initiator == w; assert h in next; }
    }
  }

  /** The stack has moved on by one stage of the cleanup of `v`; fewer sockets linger. */
  ghost predicate Cleaner(s: State, q: State, v: nat) {
    && q.clients == s.clients && q.attempts == s.attempts && q.tasks == s.tasks && q.closed == s.closed
    && SameServers(s.servers, q.servers)
    && s.rooms.cleaned <= q.rooms.cleaned <= s.rooms.cleaned + {v}
    && q.rooms.roster <= s.rooms.roster && RosterLive(q.rooms)
    && (forall w: nat :: Lingering(q.rooms, w) ==> Lingering(s.rooms, w))
    && (forall w: nat :: StackDoomed(q.stack, w) <==> StackDoomed(s.stack, w))
    && (forall w: nat :: GroupOf(q.stack, w) <==> GroupOf(s.stack, w))
    && (forall w: nat :: Lingering(q.rooms, w) ==> (InClean(q.stack, w) <==> InClean(s.stack, w)))
    && (forall a: nat :: AfterConnection(a) in q.stack <==> AfterConnection(a) in s.stack)
    && (forall c: nat :: Tail(c) in q.stack <==> Tail(c) in s.stack)
    && v < |s.servers| && s.servers[v].torn
  }

  lemma CleanerProvisional(s: State, q: State, v: nat)
    requires Provisional(s) && Cleaner(s, q, v)
    ensures Provisional(q)
  {
    hide GroupOf, StackDoomed, InClean, Lingering;
    forall a | 0 <= a < |q.attempts| && q.attempts[a].server.Some? && NotYetDone(q.attempts, q.tasks, a)
      ensures Unadmitted(q.clients, q.attempts, q.servers, q.rooms, q.stack, a)
    {
      assert Unadmitted(s.clients, s.attempts, s.servers, s.rooms, s.stack, a);
    }
  }

  lemma CleanerClaims(s: State, q: State, v: nat)
    requires Claims(s) && Marks(s) && Waits(s) && Cleaner(s, q, v)
    ensures Claims(q) && Marks(q) && Waits(q)
  {
    hide GroupOf, StackDoomed, InClean, Lingering, NeverAfter;
    forall w: nat | Doomed(q.servers, q.tasks, q.stack, w) ensures Claimed(q.clients, q.attempts, q.servers, q.stack, w) {
      assert Claimed(s.clients, s.attempts, s.servers, s.stack, w);
      forall a: nat | Announced(q.attempts, q.servers, q.stack, a, w) ensures q.attempts[a].server == Some(w) {
        assert Announced(s.attempts, s.servers, s.stack, a, w);
      }
    }
    CleanerWaits(s, q, v);
  }

  lemma CleanerWaits(s: State, q: State, v: nat)
    requires Waits(s) && Cleaner(s, q, v)
    ensures Waits(q)
  {
    hide GroupOf, StackDoomed, InClean, Lingering, NeverAfter;
    forall w: nat | StackDoomed(q.stack, w) ensures Waiting(q.attempts, q.servers, w) {
      assert Waiting(s.attempts, s.servers, w);
      forall a: nat | Rival(q.attempts, q.servers, a, w) ensures !q.attempts[a].asked {
        assert Rival(s.attempts, s.servers, a, w);
      }
    }
    forall w: nat | MarkTask(w) in q.tasks ensures MarkedFirst(q.attempts, q.servers, q.tasks, w) {
      assert MarkedFirst(s.attempts, s.servers, s.tasks, w);
      forall a: nat, f | Rival(q.attempts, q.servers, a, w) ensures NeverAfter(q.tasks, MarkTask(w), DoneTask(a, f)) {
        assert Rival(s.attempts, s.servers, a, w);
      }
    }
  }

  lemma CleanerFifo(s: State, q: State, v: nat)
    requires Fifo(s) && Homes(s) && Cleaner(s, q, v)
    ensures Fifo(q) && Homes(q)
  {
    hide GroupOf, StackDoomed, InClean, Lingering, NeverAfter;
    forall a | 0 <= a < |q.attempts| && q.attempts[a].phase == Pending ensures PairFifo(q, a) && DoneFifo(q, a) {
      assert PairFifo(s, a) && DoneFifo(s, a);
      forall w: nat | Other(q.attempts, q.servers, q.rooms, a, w) ensures Other(s.attempts, s.servers, s.rooms, a, w) {}
    }
    forall w | 0 <= w < |q.servers| && w !in q.rooms.cleaned ensures HomeOf(q.clients, q.attempts, q.servers, q.stack, w) {
      assert HomeOf(s.clients, s.attempts, s.servers, s.stack, w);
    }
  }

  lemma CleanerHandover(s: State, q: State, v: nat)
    requires Handover(s) && Cleaner(s, q, v)
    ensures Handover(q)
  {
    CleanerProvisional(s, q, v);
    CleanerClaims(s, q, v);
    CleanerFifo(s, q, v);
    hide Homes, Provisional, Claims, Waits, Marks, Fifo;
  }

  lemma CleanHandover(s: State, v: nat, sync: bool)
    requires Inv(s) && Handover(s) && s.stack != [] && s.stack[0] == Clean(v, sync) && v < |s.servers|
    ensures Handover(CleanResume(s.(stack := s.stack[1..]), v, sync))
  {
    var q := CleanResume(s.(stack := s.stack[1..]), v, sync);
    HeadTorn(s);
    CleanStackFacts(s.stack, CleanEnd(v, sync));
    BeginEffect(s.rooms, v);
    hide Homes, Provisional, Claims, Waits, Marks, Fifo, StackDoomed, GroupOf, InClean, Inv;
    CleanerHandover(s, q, v);
  }

  lemma HeadTorn(s: State)
    requires Inv(s) && s.stack != [] && IsClean(s.stack[0])
    ensures s.stack[0].server < |s.servers| && s.servers[s.stack[0].server].torn
  {
    hide Inv;
    var f := s.stack[0];
    assert f in s.stack;
    assert InClean(s.stack, f.server);
    CleanFacts(s, f.server);
  }

  lemma BeginEffect(r: Rooms.State, v: nat)
    requires RosterLive(r)
    ensures var q := Rooms.CleanBegin(r, v);
            && q.cleaned == r.cleaned + {v} && q.roster == r.roster && RosterLive(q)
            && (forall w: nat :: Lingering(q, w) <==> Lingering(r, w))
  {}

  lemma EndEffect(r: Rooms.State, v: nat)
    requires RosterLive(r) && v in r.cleaned
    ensures var q := Rooms.CleanEnd(r, v);
            && q.cleaned == r.cleaned && q.roster <= r.roster && RosterLive(q)
            && (forall w: nat :: Lingering(q, w) <==> Lingering(r, w) && w != v)
  {}

  lemma CleanEndHandover(s: State, v: nat, sync: bool)
    requires Inv(s) && Handover(s) && s.stack != [] && s.stack[0] == CleanEnd(v, sync)
    ensures Handover(CleanEndResume(s.(stack := s.stack[1..]), v, sync))
  {
    var q := CleanEndResume(s.(stack := s.stack[1..]), v, sync);
    HeadTorn(s);
    HeadCleaned(s);
    CleanStackFacts(s.stack, Ended(v, sync));
    EndEffect(s.rooms, v);
    hide Homes, Provisional, Claims, Waits, Marks, Fifo, StackDoomed, GroupOf, InClean, Inv, Lingering;
    CleanerHandover(s, q, v);
  }

  lemma HeadCleaned(s: State)
    requires Inv(s) && s.stack != [] && s.stack[0].CleanEnd?
    ensures s.stack[0].server in s.rooms.cleaned
  {
    hide Standing, Outcomes, Protocol, Once, LetGo, Rooms.Coherent, LeftRooms, FramesInRange;
    assert s.stack[0] in s.stack;
  }

  // After `disconnect` is out.

  lemma EndedDrops(s: State)
    requires s.stack != [] && s.stack[0].Ended?
    ensures Drops(s, s.(stack := s.stack[1..]))
  {
    PopMembers(s.stack);
  }

  lemma EndedClaims(s: State, t: Task, rest: seq<Frame>)
    requires Claims(s) && (t.MarkTask? || t.CloseMarkTask?)
    requires Doomed(s.servers, s.tasks, s.stack, t.server)
    requires Drops(s, s.(stack := rest))
    ensures Claims(Enqueue(s.(stack := rest), t))
  {
    hide GroupOf, StackDoomed, InClean;
    var q := Enqueue(s.(stack := rest), t);
    forall w: nat | Doomed(q.servers, q.tasks, q.stack, w) ensures Claimed(q.clients, q.attempts, q.servers, q.stack, w) {
      assert Claimed(s.clients, s.attempts, s.servers, s.stack, w);
      forall a: nat | Announced(q.attempts, q.servers, q.stack, a, w) ensures q.attempts[a].server == Some(w) {
        assert Announced(s.attempts, s.servers, s.stack, a, w);
      }
    }
  }

  lemma EndedWaits(s: State, t: Task)
    requires Waits(s) && (t.MarkTask? || t.CloseMarkTask?)
    requires t.MarkTask? ==> forall a: nat, f: bool :: Rival(s.attempts, s.servers, a, t.server) ==> DoneTask(a, f) !in s.tasks
    ensures Waits(Enqueue(s, t))
  {
    hide GroupOf, StackDoomed, NeverAfter;
    var q := Enqueue(s, t);
    forall w: nat | MarkTask(w) in q.tasks ensures MarkedFirst(q.attempts, q.servers, q.tasks, w) {
      forall a: nat, f | Rival(q.attempts, q.servers, a, w) ensures NeverAfter(q.tasks, MarkTask(w), DoneTask(a, f)) {
        if MarkTask(w) in s.tasks {
          assert MarkedFirst(s.attempts, s.servers, s.tasks, w);
        } else {
          NotInNeverAfter(s.tasks, MarkTask(w), DoneTask(a, f));
        }
        NeverAfterAppend(s.tasks, MarkTask(w), DoneTask(a, f), t);
      }
    }
  }

  lemma NotInNeverAfter(tasks: seq<Task>, x: Task, y: Task)
    requires x !in tasks
    ensures NeverAfter(tasks, x, y)
  {}

  lemma RivalsNotDone(s: State, v: nat)
    requires Inv(s) && Waits(s) && StackDoomed(s.stack, v)
    ensures forall a: nat, f: bool :: Rival(s.attempts, s.servers, a, v) ==> DoneTask(a, f) !in s.tasks
  {
    hide Protocol, Membership, Once, LetGo, Agreed, Linked, OwnServers, TasksDistinct, TasksInRange;
    forall a: nat, f: bool | Rival(s.attempts, s.servers, a, v) ensures DoneTask(a, f) !in s.tasks {
      assert Waiting(s.attempts, s.servers, v);
      NotAskedNotDone(s, a);
    }
  }

  lemma NotAskedNotDone(s: State, a: nat)
    requires Standing(s) && Outcomes(s) && a < |s.attempts| && !s.attempts[a].asked
    ensures !DoneQueued(s.tasks, a) && !s.attempts[a].completed
  {}

  lemma EndedRest(s: State, t: Task)
    requires Homes(s) && Provisional(s) && Fifo(s) && Marks(s) && (t.MarkTask? || t.CloseMarkTask?)
    requires !Lingering(s.rooms, t.server)
    requires t.CloseMarkTask? ==> t.server < |s.servers| && s.servers[t.server].closing
    ensures var q := Enqueue(s, t); Homes(q) && Provisional(q) && Fifo(q) && Marks(q)
  {
    ErrorTaskFifo(s, t);
    hide Fifo;
    var q := Enqueue(s, t);
    forall a | 0 <= a < |q.attempts| && q.attempts[a].server.Some? && NotYetDone(q.attempts, q.tasks, a)
      ensures Unadmitted(q.clients, q.attempts, q.servers, q.rooms, q.stack, a)
    {
      assert Unadmitted(s.clients, s.attempts, s.servers, s.rooms, s.stack, a);
    }
  }

  lemma EndedHandover(s: State, v: nat, sync: bool)
    requires Inv(s) && Handover(s) && s.stack != [] && s.stack[0] == Ended(v, sync)
    ensures Handover(EndedResume(s.(stack := s.stack[1..]), v, sync))
  {
    var rest := s.stack[1..];
    var p := s.(stack := rest);
    assert s.stack[0] in s.stack;
    LeftFacts(s, v);
    if sync { RivalsNotDone(s, v); }
    assert sync ==> Doomed(s.servers, s.tasks, s.stack, v);
    EndedDrops(s);
    DropsHandover(s, rest);
    hide Inv, Homes, Provisional, Claims, Waits, Marks, Fifo, Drops, Doomed, Lingering, Rival;
    if sync || s.servers[v].closing {
      var t := if sync then MarkTask(v) else CloseMarkTask(v);
      ClosingDoomed(s, v);
      EndedClaims(s, t, rest);
      EndedWaits(p, t);
      EndedRest(p, t);
    }
  }

  lemma ClosingDoomed(s: State, v: nat)
    requires v < |s.servers|
    ensures s.servers[v].closing ==> Doomed(s.servers, s.tasks, s.stack, v)
  {}
}
