/** `disconnect(true)` over the members of a Manager. */
module LifecycleGroup {
  // The Manager tears down every connected member and cancels every other pending one, even
  // though listeners run in between and may do anything.

  import opened Common
  import Rooms
  import opened Lifecycle
  import opened LifecycleStanding
  import opened LifecycleOutcomes
  import opened LifecycleTeardown
  import opened LifecycleMembership
  import opened LifecycleRuns

  predicate TornServer(s: State, c: nat)
    requires c < |s.clients|
  {
    s.clients[c].server.Some? && s.clients[c].server.value < |s.servers| && s.servers[s.clients[c].server.value].torn
  }

  /** Every connected member is still to come in the snapshot, or its server socket is torn. */
  ghost predicate GroupProgress(s: State, order: seq<nat>, next: nat, v: nat) {
    forall c :: 0 <= c < |s.clients| && s.clients[c].connected && s.clients[c].manager == ManagerOf(s, v)
                && !TornServer(s, c)
      ==> exists i :: next <= i < |order| && order[i] == c
  }

  ghost predicate Groups(s: State) {
    forall f: Frame :: f in s.stack && f.Group? ==> GroupProgress(s, f.order, f.next, f.initiator)
  }

  /** No client becomes connected, changes its socket or its Manager; nothing is untorn. */
  ghost predicate Shrinks(s: State, q: State) {
    && |q.clients| == |s.clients| && |s.servers| <= |q.servers|
    && (forall c :: 0 <= c < |s.clients| ==>
          q.clients[c].manager == s.clients[c].manager
          && (q.clients[c].connected ==> s.clients[c].connected && q.clients[c].server == s.clients[c].server))
    && (forall v :: 0 <= v < |s.servers| ==>
          q.servers[v].client == s.servers[v].client && (s.servers[v].torn ==> q.servers[v].torn))
  }

  lemma ShrinksTrans(s: State, q: State, r: State)
    requires Shrinks(s, q) && Shrinks(q, r)
    ensures Shrinks(s, r)
  {}

  lemma ShrinksKeeps(s: State, q: State, order: seq<nat>, next: nat, v: nat)
    requires Shrinks(s, q) && GroupProgress(s, order, next, v) && v < |s.servers|
    requires Linked(s.clients, s.attempts, s.servers)
    ensures GroupProgress(q, order, next, v)
  {
    assert ManagerOf(q, v) == ManagerOf(s, v);
    forall c | 0 <= c < |q.clients| && q.clients[c].connected && q.clients[c].manager == ManagerOf(q, v) && !TornServer(q, c)
      ensures exists i :: next <= i < |order| && order[i] == c
    {
      assert !TornServer(s, c);
    }
  }

  lemma ShrinksKeepsGroups(s: State, q: State)
    requires Groups(s) && Shrinks(s, q) && Standing(s)
    requires FramesInRange(s.stack, |s.clients|, |s.servers|)
    requires forall f: Frame :: f.Group? && f in q.stack ==> f in s.stack
    ensures Groups(q)
  {
    hide GroupProgress;
    forall f: Frame | f in q.stack && f.Group? ensures GroupProgress(q, f.order, f.next, f.initiator) {
      ShrinksKeeps(s, q, f.order, f.next, f.initiator);
    }
  }

  // Every step but the completion of an attempt shrinks.

  lemma DiscardShrinks(s: State, v: Option<nat>)
    ensures Shrinks(s, DiscardOf(s, v)) && DiscardOf(s, v).stack == s.stack
  {}

  lemma AbandonShrinks(s: State, a: nat, phase: Phase)
    requires IsPending(s, a)
    ensures Shrinks(s, Abandon(s, a, phase)) && Abandon(s, a, phase).stack == s.stack
  {}

  lemma CancelShrinks(s: State, c: nat)
    requires c < |s.clients|
    ensures Shrinks(s, Cancel(s, c)) && Cancel(s, c).stack == s.stack
  {
    hide Abandon;
    var attempt := s.clients[c].attempt;
    if attempt.Some? && IsPending(s, attempt.value) { AbandonShrinks(s, attempt.value, Cancelled); }
  }

  lemma RejectShrinks(s: State, a: nat, encodes: bool)
    ensures Shrinks(s, Reject(s, a, encodes)) && Reject(s, a, encodes).stack == s.stack
  {
    if IsPending(s, a) { AbandonShrinks(s, a, Rejected(encodes)); }
  }

  lemma {:induction false} CancelOthersShrinks(s: State, i: nat, manager: nat, v: nat)
    ensures Shrinks(s, CancelOthers(s, i, manager, v)) && CancelOthers(s, i, manager, v).stack == s.stack
    decreases |s.clients| - i
  {
    if i < |s.clients| {
      hide Shrinks;
      var q := if i in s.pending && s.clients[i].manager == manager && !Owns(s, i, v) then Cancel(s, i) else s;
      CancelShrinks(s, i);
      ShrinksSelf(s);
      CancelOthersShrinks(q, i + 1, manager, v);
      ShrinksTrans(s, q, CancelOthers(q, i + 1, manager, v));
    }
  }

  lemma ShrinksSelf(s: State)
    ensures Shrinks(s, s)
  {}

  lemma {:induction false} TeardownAllShrinks(s: State, order: seq<nat>)
    ensures Shrinks(s, TeardownAll(s, order))
    decreases |order|
  {
    if order != [] {
      var q := if order[0] < |s.servers| then Teardown(s, order[0], true) else s;
      assert Shrinks(s, q);
      hide Shrinks, Teardown;
      TeardownAllShrinks(q, order[1..]);
      ShrinksTrans(s, q, TeardownAll(q, order[1..]));
    }
  }

  /** Apart from group frames themselves. */
  lemma CallShrinks(s: State, e: Event)
    requires Enabled(s, e) && !e.Return? && !e.Microtask?
    ensures Shrinks(s, Perform(s, e))
    ensures forall f: Frame :: f.Group? && f in Perform(s, e).stack ==>
              f in s.stack || (e.DisconnectGroup? && f == Group(e.order, 0, e.server) && Owns(s, s.servers[e.server].client, e.server))
  {
    hide Cancel, TeardownAll, Reject, Rooms.Join, Rooms.Leave, Guard, Superseded, Rooms.Cleanup, Owns;
    match e {
      case Disconnect(c) => CancelShrinks(s, c);
      case CloseSpace(space, order) =>
        TeardownAllShrinks(s.(closed := s.closed + {space}), order);
        TeardownAllSameAttempts(s.(closed := s.closed + {space}), order);
      case Authenticate(a) => RejectShrinks(s, a, true);
      case _ =>
    }
  }

  lemma RunTaskShrinks(s: State, t: Task)
    ensures Shrinks(s, RunTask(s, t))
    ensures forall f: Frame :: f.Group? && f in RunTask(s, t).stack ==> f in s.stack
  {
    hide Reject, DiscardOf, Rooms.Join, Rooms.Register;
    match t {
      case PairTask(a) => RejectShrinks(s, a, true);
      case DoneTask(a, failed) =>
        RejectShrinks(s, a, true);
        RejectShrinks(s, a, false);
        if a < |s.attempts| { DiscardShrinks(s, s.attempts[a].server); }
      case _ =>
    }
  }

  lemma ResumeShrinks(s: State, f: Frame, encodes: bool)
    requires !f.AfterConnection? && !f.Group?
    ensures Shrinks(s, Resume(s, f, encodes))
    ensures forall g: Frame :: g.Group? && g in Resume(s, f, encodes).stack ==> g in s.stack
  {
    hide Rooms.CleanBegin, Rooms.CleanEnd;
    match f {
      case Broadcasting(order) => BroadcastingStack(s, order);
      case _ =>
    }
  }

  lemma BroadcastingStack(s: State, order: seq<nat>)
    ensures forall g: Frame :: g.Group? && g in BroadcastingResume(s, order).stack ==> g in s.stack
  {
    if order != [] {
      var q := Push(s, Broadcasting(order[1..]));
      forall g: Frame | g.Group? && g in q.stack ensures g in s.stack {}
    }
  }

  lemma ServerDisconnectShrinks(s: State, v: nat)
    requires v < |s.servers|
    ensures var q := ServerDisconnectCall(s, v);
            && Shrinks(s, q) && q.servers[v].torn && q.clients == s.clients && q.attempts == s.attempts
            && q.pending == s.pending
            && (forall f: Frame :: f.Group? && f in q.stack ==> f in s.stack)
  {}

  /** One member of the snapshot has been served. */
  lemma MemberProgress(s: State, order: seq<nat>, next: nat, v: nat)
    requires Standing(s) && v < |s.servers| && next < |order| && GroupProgress(s, order, next, v)
    ensures GroupProgress(GroupNext(s, order, next, v), order, next + 1, v)
  {
    hide ServerDisconnectCall;
    var q := Push(s, Group(order, next + 1, v));
    var r := GroupNext(s, order, next, v);
    var d := order[next];
    if d < |s.clients| && s.clients[d].connected {
      assert ClientAgrees(s.clients, s.attempts, s.pending, s.connected, d);
      ServerDisconnectShrinks(q, s.clients[d].server.value);
      assert TornServer(r, d);
    }
    assert Shrinks(s, r);
    ShrinksKeeps(s, r, order, next, v);
    forall c | 0 <= c < |r.clients| && r.clients[c].connected && r.clients[c].manager == ManagerOf(r, v) && !TornServer(r, c)
      ensures exists i :: next + 1 <= i < |order| && order[i] == c
    {
      var i :| next <= i < |order| && order[i] == c;
      assert c != d;
    }
  }

  lemma GroupNextGroups(s: State, order: seq<nat>, next: nat, v: nat)
    requires Groups(s) && Standing(s) && v < |s.servers| && GroupProgress(s, order, next, v)
    requires FramesInRange(s.stack, |s.clients|, |s.servers|)
    ensures Groups(GroupNext(s, order, next, v))
  {
    hide GroupProgress, Standing, CancelOthers, ServerDisconnectCall, Shrinks;
    var r := GroupNext(s, order, next, v);
    if next < |order| {
      MemberProgress(s, order, next, v);
      MemberShrinks(s, order, next, v);
      forall f: Frame | f in r.stack && f.Group? ensures GroupProgress(r, f.order, f.next, f.initiator) {
        if f in s.stack {
          assert Linked(s.clients, s.attempts, s.servers) by { StandingLinked(s); }
          ShrinksKeeps(s, r, f.order, f.next, f.initiator);
        }
      }
    } else {
      FinishShrinks(s, order, next, v);
      ShrinksKeepsGroups(s, r);
    }
  }

  lemma StandingLinked(s: State)
    requires Standing(s)
    ensures Linked(s.clients, s.attempts, s.servers)
  {}

  lemma MemberShrinks(s: State, order: seq<nat>, next: nat, v: nat)
    requires v < |s.servers| && next < |order|
    ensures Shrinks(s, GroupNext(s, order, next, v))
    ensures forall f: Frame :: f.Group? && f in GroupNext(s, order, next, v).stack ==> f in s.stack || f == Group(order, next + 1, v)
  {
    hide ServerDisconnectCall;
    var q := Push(s, Group(order, next + 1, v));
    forall f: Frame ensures f in q.stack <==> f in s.stack || f == Group(order, next + 1, v) {}
    var d := order[next];
    if d < |s.clients| && s.clients[d].connected && s.clients[d].server.Some? && s.clients[d].server.value < |s.servers| {
      ServerDisconnectShrinks(q, s.clients[d].server.value);
    }
  }

  lemma FinishShrinks(s: State, order: seq<nat>, next: nat, v: nat)
    requires v < |s.servers| && next >= |order|
    ensures Shrinks(s, GroupNext(s, order, next, v))
    ensures forall f: Frame :: f.Group? && f in GroupNext(s, order, next, v).stack ==> f in s.stack
  {
    hide Shrinks, ServerDisconnectCall, CancelOthers;
    var q := CancelOthers(s, 0, ManagerOf(s, v), v);
    CancelOthersShrinks(s, 0, ManagerOf(s, v), v);
    ServerDisconnectShrinks(q, v);
    ShrinksTrans(s, q, ServerDisconnectCall(q, v));
  }

  lemma CompleteGroups(s: State, a: nat)
    requires Outcomes(s) && s.stack != [] && s.stack[0] == AfterConnection(a)
    ensures Groups(CompleteAttempt(s.(stack := s.stack[1..]), a))
  {
    assert Base(s.stack[0]);
    assert s.stack[1..] == [];
  }

  lemma PopGroups(s: State)
    requires Groups(s) && s.stack != []
    ensures Groups(s.(stack := s.stack[1..]))
  {
    hide GroupProgress;
    PopMembers(s.stack);
    var p := s.(stack := s.stack[1..]);
    forall f: Frame | f in p.stack && f.Group? ensures GroupProgress(p, f.order, f.next, f.initiator) {
      SameProgress(s, p, f.order, f.next, f.initiator);
    }
  }

  lemma SameProgress(s: State, p: State, order: seq<nat>, next: nat, v: nat)
    requires GroupProgress(s, order, next, v) && p.clients == s.clients && p.servers == s.servers
    ensures GroupProgress(p, order, next, v)
  {
    assert ManagerOf(p, v) == ManagerOf(s, v);
    forall c | 0 <= c < |p.clients| ensures TornServer(p, c) == TornServer(s, c) {}
  }

  lemma ReturnGroups(s: State, encodes: bool)
    requires Groups(s) && Inv(s) && s.stack != []
    ensures Groups(Resume(s.(stack := s.stack[1..]), s.stack[0], encodes))
  {
    hide Groups, GroupProgress, Standing, Outcomes, Protocol, Once, LetGo, Shrinks, GroupNext, CompleteAttempt,
         CleanResume, CleanEndResume, TailResume, EndedResume, SendingResume, BroadcastingResume, FramesInRange;
    var p := s.(stack := s.stack[1..]);
    var f := s.stack[0];
    FrameFacts(s);
    FrameHead(s);
    PopGroups(s);
    SameStandingKeeps(s, p);
    PopRange(s.stack, |s.clients|, |s.servers|);
    match f {
      case AfterConnection(a) => CompleteGroups(s, a);
      case Group(order, next, v) =>
        GroupHead(s);
        SameProgress(s, p, order, next, v);
        GroupNextGroups(p, order, next, v);
      case _ =>
        ResumeShrinks(p, f, encodes);
        ShrinksKeepsGroups(p, Resume(p, f, encodes));
    }
  }

  lemma PopRange(stack: seq<Frame>, clients: nat, servers: nat)
    requires FramesInRange(stack, clients, servers) && stack != []
    ensures FramesInRange(stack[1..], clients, servers)
  {
    PopMembers(stack);
  }

  lemma GroupHead(s: State)
    requires Groups(s) && s.stack != [] && s.stack[0].Group?
    ensures GroupProgress(s, s.stack[0].order, s.stack[0].next, s.stack[0].initiator)
  {
    assert s.stack[0] in s.stack;
  }

  lemma SnapshotProgress(s: State, q: State, v: nat, order: seq<nat>)
    requires Standing(s) && Snapshot(s, v, order) && q.clients == s.clients && q.servers == s.servers
    ensures GroupProgress(q, order, 0, v)
  {
    assert ManagerOf(q, v) == ManagerOf(s, v);
    forall c | 0 <= c < |q.clients| && q.clients[c].connected && q.clients[c].manager == ManagerOf(q, v)
      ensures exists i :: 0 <= i < |order| && order[i] == c
    {
      assert ClientAgrees(s.clients, s.attempts, s.pending, s.connected, c);
      assert c in order;
    }
  }

  lemma CallGroups(s: State, e: Event)
    requires Groups(s) && Inv(s) && Enabled(s, e) && !e.Return? && !e.Microtask?
    ensures Groups(Perform(s, e))
  {
    hide GroupProgress, Standing, Outcomes, Protocol, Once, LetGo, Shrinks, Perform, FramesInRange, Snapshot;
    var q := Perform(s, e);
    FrameFacts(s);
    CallShrinks(s, e);
    StandingLinked(s);
    forall f: Frame | f in q.stack && f.Group? ensures GroupProgress(q, f.order, f.next, f.initiator) {
      if f in s.stack {
        assert f.initiator < |s.servers| by { FrameRange(s, f); }
        ShrinksKeeps(s, q, f.order, f.next, f.initiator);
      } else {
        GroupCallProgress(s, e);
      }
    }
  }

  lemma FrameRange(s: State, f: Frame)
    requires FramesInRange(s.stack, |s.clients|, |s.servers|) && f in s.stack && f.Group?
    ensures f.initiator < |s.servers|
  {}

  lemma GroupCallProgress(s: State, e: Event)
    requires Standing(s) && Enabled(s, e) && e.DisconnectGroup?
    ensures GroupProgress(Perform(s, e), e.order, 0, e.server)
  {
    hide Standing, Snapshot;
    SnapshotProgress(s, Perform(s, e), e.server, e.order);
  }

  lemma MicrotaskGroups(s: State)
    requires Groups(s) && Inv(s) && s.stack == [] && s.tasks != []
    ensures Groups(RunTask(s.(tasks := s.tasks[1..]), s.tasks[0]))
  {
    RunTaskShrinks(s.(tasks := s.tasks[1..]), s.tasks[0]);
  }

  lemma StepGroups(s: State, e: Event)
    requires Groups(s) && Inv(s)
    ensures Groups(Step(s, e))
  {
    hide Groups, Inv, Resume, RunTask;
    if Enabled(s, e) {
      match e {
        case Return(encodes) => ReturnGroups(s, encodes);
        case Microtask => MicrotaskGroups(s);
        case _ => CallGroups(s, e);
      }
    }
  }

  lemma {:induction false} RunGroups(s: State, events: seq<Event>)
    requires Groups(s) && Inv(s)
    ensures Groups(Run(s, events))
    decreases |events|
  {
    hide Groups, Inv, Step;
    if events != [] {
      StepGroups(s, events[0]);
      StepInv(s, events[0]);
      RunGroups(Step(s, events[0]), events[1..]);
    }
  }

  // The end of the group operation.

  /** Pending members below `i` are the initiator's own. */
  ghost predicate CancelledBelow(s: State, i: nat, manager: nat, v: nat) {
    forall c :: 0 <= c < i && c < |s.clients| && c in s.pending && s.clients[c].manager == manager ==> Owns(s, c, v)
  }

  lemma CancelOneBelow(s: State, i: nat, manager: nat, v: nat)
    requires Standing(s) && i < |s.clients| && CancelledBelow(s, i, manager, v)
    ensures var q := if i in s.pending && s.clients[i].manager == manager && !Owns(s, i, v) then Cancel(s, i) else s;
            CancelledBelow(q, i + 1, manager, v)
  {
    assert ClientAgrees(s.clients, s.attempts, s.pending, s.connected, i);
    if i in s.pending && s.clients[i].manager == manager && !Owns(s, i, v) {
      var q := Cancel(s, i);
      forall c | 0 <= c < i && c in q.pending && q.clients[c].manager == manager ensures Owns(q, c, v) {
        assert ClientAgrees(s.clients, s.attempts, s.pending, s.connected, c);
        OtherOwns(s, i, c, v);
      }
    }
  }

  lemma OtherOwns(s: State, i: nat, c: nat, v: nat)
    requires Standing(s) && i < |s.clients| && c < |s.clients| && c != i
    requires i in s.pending && Owns(s, c, v)
    ensures Owns(Cancel(s, i), c, v)
  {
    hide Rooms.Cleanup;
    assert ClientAgrees(s.clients, s.attempts, s.pending, s.connected, i);
    assert ClientAgrees(s.clients, s.attempts, s.pending, s.connected, c);
    var a := s.clients[i].attempt.value;
    assert s.servers[v].client == c;
    assert s.attempts[a].server != Some(v);
  }

  lemma {:induction false} OthersCancelled(s: State, i: nat, manager: nat, v: nat)
    requires Standing(s) && CancelledBelow(s, i, manager, v) && i <= |s.clients|
    ensures var q := CancelOthers(s, i, manager, v); CancelledBelow(q, |q.clients|, manager, v) && Standing(q)
    decreases |s.clients| - i
  {
    hide Standing, CancelledBelow;
    if i < |s.clients| {
      var q := if i in s.pending && s.clients[i].manager == manager && !Owns(s, i, v) then Cancel(s, i) else s;
      CancelOneBelow(s, i, manager, v);
      CancelStanding(s, i);
      CancelShrinks(s, i);
      OthersCancelled(q, i + 1, manager, v);
    }
  }

  /** The socket attached to the client's current attempt. */
  function AttemptServer(s: State, c: nat): Option<nat>
    requires c < |s.clients|
  {
    if s.clients[c].attempt.Some? && s.clients[c].attempt.value < |s.attempts|
    then s.attempts[s.clients[c].attempt.value].server else None
  }

  /**
    Of the Manager's members every connected one has a torn server socket, and only the
    one whose attempt `v` belongs to may still be pending.
   */
  ghost predicate GroupDone(s: State, manager: nat, v: nat) {
    forall c :: 0 <= c < |s.clients| && s.clients[c].manager == manager ==>
      (s.clients[c].connected ==> TornServer(s, c)) && (c in s.pending ==> AttemptServer(s, c) == Some(v))
  }

  /** When the group operation of server socket `v` ends, it has reached every member. */
  lemma GroupFinishes(s: State, encodes: bool)
    requires Inv(s) && Groups(s) && s.stack != [] && s.stack[0].Group? && s.stack[0].next >= |s.stack[0].order|
    ensures var v := s.stack[0].initiator;
            var q := Step(s, Return(encodes));
            && v < |s.servers| && v < |q.servers| && q.servers[v].torn
            && GroupDone(q, ManagerOf(s, v), v)
  {
    hide Outcomes, Protocol, Once, LetGo, CancelOthers, ServerDisconnectCall, Standing, Groups, GroupProgress, FramesInRange,
         Shrinks, CancelledBelow, GroupDone;
    var f := s.stack[0];
    var v := f.initiator;
    var p := s.(stack := s.stack[1..]);
    FrameHead(s);
    GroupHead(s);
    SameStandingKeeps(s, p);
    SameProgress(s, p, f.order, f.next, v);
    FinishShrinks(p, f.order, f.next, v);
    StandingLinked(p);
    var q := CancelOthers(p, 0, ManagerOf(p, v), v);
    var r := GroupNext(p, f.order, f.next, v);
    ShrinksKeeps(p, r, f.order, f.next, v);
    NoneBelow(p, ManagerOf(p, v), v);
    OthersCancelled(p, 0, ManagerOf(p, v), v);
    CancelOthersShrinks(p, 0, ManagerOf(p, v), v);
    ServerDisconnectShrinks(q, v);
    GroupResult(p, q, r, f.order, f.next, v);
  }

  lemma NoneBelow(s: State, manager: nat, v: nat)
    ensures CancelledBelow(s, 0, manager, v)
  {}

  lemma GroupResult(s: State, q: State, r: State, order: seq<nat>, next: nat, v: nat)
    requires v < |s.servers| && next >= |order| && Shrinks(s, r) && Shrinks(s, q) && Shrinks(q, r) && Standing(q)
    requires Linked(s.clients, s.attempts, s.servers)
    requires GroupProgress(r, order, next, v)
    requires CancelledBelow(q, |q.clients|, ManagerOf(s, v), v)
    requires r.clients == q.clients && r.attempts == q.attempts && r.pending == q.pending
    ensures GroupDone(r, ManagerOf(s, v), v)
  {
    assert ManagerOf(r, v) == ManagerOf(s, v);
    forall c | 0 <= c < |r.clients| && r.clients[c].manager == ManagerOf(s, v) && c in r.pending
      ensures AttemptServer(r, c) == Some(v)
    {
      assert ClientAgrees(q.clients, q.attempts, q.pending, q.connected, c);
      assert Owns(q, c, v);
    }
  }
}
