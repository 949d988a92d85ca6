/**
  Sockets held by middleware. Until its attempt is admitted a server socket is in no roster and
  is nobody's connection, and nothing cleans it but the end of its attempt or an application
  that disconnects it by hand.
 */
module LifecycleHeld {
  import opened Common
  import Rooms
  import opened Lifecycle
  import opened LifecycleStanding
  import opened LifecycleOutcomes
  import opened LifecycleTeardown
  import opened LifecycleMembership
  import opened LifecycleRuns
  import opened LifecycleHandover
  import opened LifecycleHandoverSteps
  import opened LifecycleHandoverFrames
  import opened LifecycleHandoverTasks
  import opened LifecycleHandoverRuns
  import opened LifecycleRoster

  /** The attempt has a server socket, and the completion of its middleware has not run. */
  ghost predicate Held(s: State, a: nat) {
    && a < |s.attempts| && s.attempts[a].phase == Pending && s.attempts[a].server.Some?
    && NotYetDone(s.attempts, s.tasks, a)
  }

  /** Nothing has happened to the socket. */
  ghost predicate Intact(s: State, v: nat) {
    && v < |s.servers| && !s.servers[v].torn && v !in s.rooms.roster && v !in s.rooms.cleaned
    && !GroupOf(s.stack, v) && forall c :: 0 <= c < |s.clients| ==> s.clients[c].server != Some(v)
  }

  ghost predicate HeldIntact(s: State) {
    forall a: nat :: Held(s, a) ==> Intact(s, s.attempts[a].server.value)
  }

  ghost predicate HeldSocket(s: State, v: nat) {
    exists a: nat :: Held(s, a) && s.attempts[a].server == Some(v)
  }

  /** An application disconnects by hand a socket that middleware still holds. */
  ghost predicate Meddles(s: State, e: Event) {
    || (e.DisconnectServer? && HeldSocket(s, e.server))
    || (e.DisconnectGroup? && HeldSocket(s, e.server))
  }

  ghost predicate NeverMeddles(s: State, events: seq<Event>)
    decreases |events|
  {
    events == [] || (!Meddles(s, events[0]) && NeverMeddles(Step(s, events[0]), events[1..]))
  }

  /** What is held afterwards was held before, by the same socket, and that stays intact. */
  ghost predicate Keeps(s: State, q: State) {
    forall a: nat :: Held(q, a) ==>
      && Held(s, a) && q.attempts[a].server == s.attempts[a].server
      && (Intact(s, s.attempts[a].server.value) ==> Intact(q, s.attempts[a].server.value))
  }

  lemma KeepsTrans(s: State, p: State, q: State)
    requires Keeps(s, p) && Keeps(p, q)
    ensures Keeps(s, q)
  {
    hide Held, Intact;
  }

  lemma KeepsHeld(s: State, q: State)
    requires HeldIntact(s) && Keeps(s, q)
    ensures HeldIntact(q)
  {
    hide Held, Intact;
  }

  /** A step that admits nothing, tears nothing and pushes no group operation. */
  lemma PlainKeeps(s: State, q: State)
    requires q.attempts == s.attempts && |q.clients| == |s.clients| && |s.servers| <= |q.servers|
    requires forall a: nat :: DoneQueued(q.tasks, a) ==> DoneQueued(s.tasks, a)
    requires forall v :: 0 <= v < |s.servers| ==> q.servers[v].torn == s.servers[v].torn
    requires forall c :: 0 <= c < |s.clients| ==> q.clients[c].server == s.clients[c].server
    requires q.rooms.roster <= s.rooms.roster && q.rooms.cleaned <= s.rooms.cleaned
    requires forall v: nat :: GroupOf(q.stack, v) ==> GroupOf(s.stack, v)
    ensures Keeps(s, q)
  {
    hide GroupOf;
  }

  lemma SelfKeeps(s: State)
    ensures Keeps(s, s)
  {}

  lemma PopKeeps(s: State)
    requires s.stack != []
    ensures Keeps(s, s.(stack := s.stack[1..]))
  {
    PlainKeeps(s, s.(stack := s.stack[1..]));
  }

  lemma PushKeeps(s: State, f: Frame)
    requires f.Group? ==> GroupOf(s.stack, f.initiator)
    ensures Keeps(s, Push(s, f))
  {
    var q := Push(s, f);
    forall v: nat | GroupOf(q.stack, v) ensures GroupOf(s.stack, v) {
      var g: Frame :| g in q.stack && g.Group? && g.initiator == v;
      assert g == f || g in s.stack;
    }
    PlainKeeps(s, q);
  }

  // Attempts that end.

  lemma DiscardKeeps(s: State, b: nat)
    requires Standing(s) && b < |s.attempts| && !Held(s, b)
    ensures Keeps(s, DiscardOf(s, s.attempts[b].server))
  {
    hide Agreed, Linked, Flagged, GroupOf;
    var w := s.attempts[b].server;
    var q := DiscardOf(s, w);
    if w.Some? {
      CleanedBy(s.rooms, w.value);
      forall a: nat | Held(q, a) ensures Held(s, a) && s.attempts[a].server != w {}
    }
    hide Rooms.Cleanup;
  }

  lemma CleanedBy(r: Rooms.State, v: nat)
    ensures Rooms.Cleanup(r, v).cleaned == r.cleaned + {v} && Rooms.Cleanup(r, v).roster <= r.roster
  {}

  lemma AbandonKeeps(s: State, b: nat, phase: Phase)
    requires Standing(s) && IsPending(s, b) && Over(phase)
    ensures Keeps(s, Abandon(s, b, phase))
  {
    hide Agreed, Linked, Flagged, GroupOf;
    var w := s.attempts[b].server;
    if w.Some? { CleanedBy(s.rooms, w.value); }
    hide Rooms.Cleanup;
    var q := Abandon(s, b, phase);
    forall a: nat | Held(q, a) ensures a != b && Held(s, a) && s.attempts[a].server != w {}
  }

  lemma CancelKeeps(s: State, c: nat)
    requires Standing(s) && c < |s.clients|
    ensures Keeps(s, Cancel(s, c))
  {
    hide Standing, Keeps, Abandon;
    SelfKeeps(s);
    var attempt := s.clients[c].attempt;
    if attempt.Some? && IsPending(s, attempt.value) { AbandonKeeps(s, attempt.value, Cancelled); }
  }

  lemma RejectKeeps(s: State, b: nat, encodes: bool)
    requires Standing(s)
    ensures Keeps(s, Reject(s, b, encodes))
  {
    hide Standing, Keeps, Abandon;
    SelfKeeps(s);
    if IsPending(s, b) {
      var p := Abandon(s, b, Rejected(encodes));
      AbandonKeeps(s, b, Rejected(encodes));
      if encodes {
        PlainKeeps(p, Enqueue(p, ErrorTask(b)));
        KeepsTrans(s, p, Reject(s, b, encodes));
      }
    }
  }

  lemma {:induction false} CancelOthersKeeps(s: State, i: nat, manager: nat, v: nat)
    requires Standing(s)
    ensures Keeps(s, CancelOthers(s, i, manager, v))
    ensures CancelOthers(s, i, manager, v).stack == s.stack
    decreases |s.clients| - i
  {
    hide Standing, Keeps;
    SelfKeeps(s);
    if i < |s.clients| {
      var q := if i in s.pending && s.clients[i].manager == manager && !Owns(s, i, v) then Cancel(s, i) else s;
      CancelKeeps(s, i);
      CancelStanding(s, i);
      CancelOthersKeeps(q, i + 1, manager, v);
      KeepsTrans(s, q, CancelOthers(q, i + 1, manager, v));
    }
  }

  lemma MarkKeeps(s: State, c: nat)
    requires Standing(s) && c < |s.clients| && s.clients[c].connected
    ensures Keeps(s, MarkDisconnected(s, c))
  {
    hide Linked, OwnServers, Flagged, GroupOf;
    assert ClientAgrees(s.clients, s.attempts, s.pending, s.connected, c);
  }

  // Teardowns.

  lemma TearKeeps(s: State, w: nat, closing: bool)
    requires w < |s.servers| && !(HeldSocket(s, w) && Intact(s, w))
    ensures Keeps(s, Teardown(s, w, closing)) && Keeps(s, ServerDisconnectCall(s, w))
  {
    hide Intact, HeldSocket;
    TearOthers(s, w, closing);
    forall a: nat | Held(s, a) && s.attempts[a].server == Some(w) ensures HeldSocket(s, w) { HeldBy(s, a, w); }
  }

  lemma HeldBy(s: State, a: nat, w: nat)
    requires Held(s, a) && s.attempts[a].server == Some(w)
    ensures HeldSocket(s, w)
  {}

  lemma TearOthers(s: State, w: nat, closing: bool)
    requires w < |s.servers|
    ensures forall a: nat :: Held(Teardown(s, w, closing), a) ==> Held(s, a)
    ensures forall a: nat :: Held(ServerDisconnectCall(s, w), a) ==> Held(s, a)
    ensures forall v: nat :: v != w && Intact(s, v) ==> Intact(Teardown(s, w, closing), v)
    ensures forall v: nat :: v != w && Intact(s, v) ==> Intact(ServerDisconnectCall(s, w), v)
  {
    var q := ServerDisconnectCall(s, w);
    forall v: nat | GroupOf(q.stack, v) ensures GroupOf(s.stack, v) {
      var g: Frame :| g in q.stack && g.Group? && g.initiator == v;
      assert g in s.stack;
    }
    hide GroupOf;
  }

  /** A socket on the roster, or connected through, is not intact. */
  lemma {:induction false} TeardownAllKeeps(s: State, order: seq<nat>)
    requires forall i :: 0 <= i < |order| ==> order[i] in s.rooms.roster
    ensures Keeps(s, TeardownAll(s, order))
    decreases |order|
  {
    SelfKeeps(s);
    if order != [] {
      var q := if order[0] < |s.servers| then Teardown(s, order[0], true) else s;
      assert order[0] in s.rooms.roster && !Intact(s, order[0]);
      if order[0] < |s.servers| { TearKeeps(s, order[0], true); }
      assert q.rooms == s.rooms;
      hide Keeps, Teardown;
      TeardownAllKeeps(q, order[1..]);
      KeepsTrans(s, q, TeardownAll(q, order[1..]));
    }
  }

  lemma GroupNextKeeps(s: State, order: seq<nat>, next: nat, v: nat)
    requires Standing(s) && v < |s.servers| && s.stack != [] && s.stack[0] == Group(order, next, v)
    ensures Keeps(s, GroupNext(s.(stack := s.stack[1..]), order, next, v))
  {
    hide Standing, Keeps, CancelOthers, ServerDisconnectCall;
    var p := s.(stack := s.stack[1..]);
    PopKeeps(s);
    SameStandingKeeps(s, p);
    if next < |order| {
      NextMember(s, order, next, v);
      var q := Push(p, Group(order, next + 1, v));
      var c := order[next];
      if c < |s.clients| && s.clients[c].connected && s.clients[c].server.Some?
         && s.clients[c].server.value < |s.servers|
      {
        var w := s.clients[c].server.value;
        assert !Intact(q, w);
        TearKeeps(q, w, false);
        KeepsTrans(s, q, ServerDisconnectCall(q, w));
      }
    } else {
      FinishGroup(s, order, next, v);
    }
  }

  lemma NextMember(s: State, order: seq<nat>, next: nat, v: nat)
    requires s.stack != [] && s.stack[0] == Group(order, next, v)
    ensures Keeps(s, Push(s.(stack := s.stack[1..]), Group(order, next + 1, v)))
  {
    var q := Push(s.(stack := s.stack[1..]), Group(order, next + 1, v));
    assert GroupOf(s.stack, v) by { assert s.stack[0] in s.stack; }
    forall w: nat | GroupOf(q.stack, w) ensures GroupOf(s.stack, w) {
      var g: Frame :| g in q.stack && g.Group? && g.initiator == w;
      assert g == Group(order, next + 1, v) || g in s.stack;
    }
    PlainKeeps(s, q);
  }

  /** The frame of the operation itself keeps its initiator from counting as intact. */
  lemma FinishGroup(s: State, order: seq<nat>, next: nat, v: nat)
    requires Standing(s) && v < |s.servers| && s.stack != [] && s.stack[0] == Group(order, next, v)
    ensures var p := s.(stack := s.stack[1..]);
            Keeps(s, ServerDisconnectCall(CancelOthers(p, 0, ManagerOf(p, v), v), v))
  {
    hide Standing, Keeps, CancelOthers, ServerDisconnectCall;
    var p := s.(stack := s.stack[1..]);
    var m := ManagerOf(p, v);
    CancelOthersStack(s, 0, m, v, s.stack[1..]);
    CancelOthersKeeps(s, 0, m, v);
    var r := CancelOthers(s, 0, m, v);
    assert GroupOf(r.stack, v) by { assert s.stack[0] in s.stack; }
    TearUnder(r, s.stack[1..], v);
    KeepsTrans(s, r, ServerDisconnectCall(r.(stack := s.stack[1..]), v));
  }

  lemma TearUnder(r: State, rest: seq<Frame>, v: nat)
    requires v < |r.servers| && GroupOf(r.stack, v) && r.stack != [] && rest == r.stack[1..]
    ensures Keeps(r, ServerDisconnectCall(r.(stack := rest), v))
  {
    var p := r.(stack := rest);
    TearOthers(p, v, false);
    forall w: nat | GroupOf(rest, w) ensures GroupOf(r.stack, w) {}
    hide GroupOf;
  }

  // Admission and establishment.

  lemma AdmitKeeps(s: State, b: nat, v: nat)
    requires Standing(s) && s.stack == [] && b < |s.attempts| && v < |s.servers| && s.attempts[b].server == Some(v)
    requires !Held(s, b)
    ensures Keeps(s, Admit(s, b, v))
  {
    AdmitRooms(s.rooms, v);
    hide Agreed, Linked, Flagged, Rooms.Join, Rooms.Register;
    var q := Admit(s, b, v);
    forall a: nat | Held(q, a) ensures Held(s, a) && s.attempts[a].server != Some(v) {}
  }

  lemma EstablishKeeps(s: State, b: nat)
    requires Standing(s) && b < |s.attempts| && !Held(s, b)
    ensures Keeps(s, CompleteAttempt(s, b))
  {
    hide Keeps, DiscardOf;
    SelfKeeps(s);
    if IsPending(s, b) {
      EstablishPendingKeeps(s, b);
    } else {
      DiscardKeeps(s, b);
    }
  }

  lemma EstablishPendingKeeps(s: State, b: nat)
    requires Standing(s) && IsPending(s, b) && !Held(s, b)
    ensures Keeps(s, CompleteAttempt(s, b))
  {
    hide Agreed, Linked, Flagged;
    var q := CompleteAttempt(s, b);
    forall v: nat | GroupOf(q.stack, v) ensures GroupOf(s.stack, v) {
      var g: Frame :| g in q.stack && g.Group? && g.initiator == v;
      assert g in s.stack;
    }
    hide GroupOf;
    forall a: nat | Held(q, a) ensures a != b && Held(s, a) {}
  }

  /** An attempt that has been announced is not held any more. */
  lemma AnnouncedNotHeld(s: State, b: nat)
    requires Outcomes(s) && AfterConnection(b) in s.stack
    ensures b < |s.attempts| && !Held(s, b)
  {
    hide TasksDistinct, TasksInRange, TasksMatch, BaseAtBottom, ConnectLog, ErrorLog, ServerFirst;
  }

  // Steps.

  lemma ResumeKeeps(s: State, encodes: bool)
    requires Inv(s) && s.stack != []
    ensures Keeps(s, Resume(s.(stack := s.stack[1..]), s.stack[0], encodes))
  {
    var p := s.(stack := s.stack[1..]);
    var f := s.stack[0];
    PopKeeps(s);
    SameStandingKeeps(s, p);
    if f.AfterConnection? {
      AnnouncedNotHeld(s, f.attempt);
      assert !Held(p, f.attempt);
      hide Inv, Keeps;
      EstablishKeeps(p, f.attempt);
      KeepsTrans(s, p, CompleteAttempt(p, f.attempt));
    } else if f.Group? {
      FrameHead(s);
      hide Inv, Keeps, GroupNext;
      GroupNextKeeps(s, f.order, f.next, f.initiator);
    } else if f.Clean? {
      CleanHead(s);
      hide Inv;
      CleanKeeps(s, f.server, f.sync);
    } else {
      TailInRange(s);
      hide Inv, Keeps, Resume;
      OtherFrameKeeps(s, encodes);
    }
  }

  lemma CleanHead(s: State)
    requires Inv(s) && s.stack != [] && s.stack[0].Clean?
    ensures s.stack[0].server < |s.servers| && s.servers[s.stack[0].server].torn
  {
    assert InClean(s.stack, s.stack[0].server) by { assert s.stack[0] in s.stack; }
    CleanFacts(s, s.stack[0].server);
  }

  lemma CleanKeeps(s: State, v: nat, sync: bool)
    requires s.stack != [] && s.stack[0] == Clean(v, sync) && v < |s.servers| && s.servers[v].torn
    ensures Keeps(s, CleanResume(s.(stack := s.stack[1..]), v, sync))
  {
    var q := CleanResume(s.(stack := s.stack[1..]), v, sync);
    forall w: nat | GroupOf(q.stack, w) ensures GroupOf(s.stack, w) {
      var g: Frame :| g in q.stack && g.Group? && g.initiator == w;
      assert g in s.stack;
    }
    assert q.rooms.roster == s.rooms.roster && q.rooms.cleaned == s.rooms.cleaned + {v};
    hide GroupOf, Rooms.CleanBegin;
  }

  lemma TailInRange(s: State)
    requires Inv(s) && s.stack != []
    ensures s.stack[0].Tail? ==> s.stack[0].client < |s.clients|
  {
    FrameHead(s);
  }

  lemma OtherFrameKeeps(s: State, encodes: bool)
    requires s.stack != [] && (s.stack[0].Tail? ==> s.stack[0].client < |s.clients|)
    requires !s.stack[0].AfterConnection? && !s.stack[0].Group? && !s.stack[0].Clean?
    ensures Keeps(s, Resume(s.(stack := s.stack[1..]), s.stack[0], encodes))
  {
    hide Keeps;
    var p := s.(stack := s.stack[1..]);
    PopKeeps(s);
    SelfKeeps(p);
    match s.stack[0] {
      case Tail(c) =>
        if p.clients[c].server.Some? && p.clients[c].server.value < |p.servers| {
          var w := p.clients[c].server.value;
          assert !Intact(p, w);
          TearKeeps(p, w, false);
        }
        KeepsTrans(s, p, TailResume(p, c));
      case CleanEnd(v, sync) =>
        var q := p.(rooms := Rooms.CleanEnd(p.rooms, v), log := CleanEndResume(p, v, sync).log);
        PlainKeeps(p, q);
        PushKeeps(q, Ended(v, sync));
        KeepsTrans(p, q, CleanEndResume(p, v, sync));
        KeepsTrans(s, p, CleanEndResume(p, v, sync));
      case Broadcasting(order) =>
        BroadcastKeeps(p, order);
        KeepsTrans(s, p, BroadcastingResume(p, order));
      case Flushing(a) => QuietFrameKeeps(s, p, encodes);
      case Ended(v, sync) => QuietFrameKeeps(s, p, encodes);
      case Sending(v, broadcast, wasConnected) => QuietFrameKeeps(s, p, encodes);
      case _ =>
    }
  }

  lemma QuietFrameKeeps(s: State, p: State, encodes: bool)
    requires s.stack != [] && p == s.(stack := s.stack[1..]) && Keeps(s, p)
    requires s.stack[0].Flushing? || s.stack[0].Ended? || s.stack[0].Sending?
    ensures Keeps(s, Resume(p, s.stack[0], encodes))
  {
    hide Keeps;
    PlainKeeps(p, Resume(p, s.stack[0], encodes));
    KeepsTrans(s, p, Resume(p, s.stack[0], encodes));
  }

  lemma BroadcastKeeps(s: State, order: seq<nat>)
    ensures Keeps(s, BroadcastingResume(s, order))
  {
    hide Keeps;
    SelfKeeps(s);
    if order != [] {
      var p := Push(s, Broadcasting(order[1..]));
      PushKeeps(s, Broadcasting(order[1..]));
      if order[0] < |s.servers| && s.servers[order[0]].client < |s.clients| {
        var f := Sending(order[0], true, s.clients[s.servers[order[0]].client].connected);
        PushKeeps(p, f);
        KeepsTrans(s, p, Push(p, f));
      }
    }
  }

  /** Taking a task off the queue: only an attempt whose completion it was changes. */
  lemma PopTaskNotHeld(s: State)
    requires Inv(s) && s.tasks != []
    ensures Keeps(s, s.(tasks := s.tasks[1..]))
    ensures s.tasks[0].DoneTask? ==> !Held(s.(tasks := s.tasks[1..]), s.tasks[0].attempt)
  {
    var p := s.(tasks := s.tasks[1..]);
    PlainKeeps(s, p);
    if s.tasks[0].DoneTask? {
      hide Keeps;
      DoneHead(s);
    }
  }

  lemma MicrotaskKeeps(s: State)
    requires Inv(s) && s.stack == [] && s.tasks != []
    ensures Keeps(s, RunTask(s.(tasks := s.tasks[1..]), s.tasks[0]))
  {
    var p := s.(tasks := s.tasks[1..]);
    PopTaskNotHeld(s);
    SameStandingKeeps(s, p);
    hide Inv, Standing, Keeps, Held, RunTask;
    RunTaskKeeps(p, s.tasks[0]);
    KeepsTrans(s, p, RunTask(p, s.tasks[0]));
  }

  lemma RunTaskKeeps(s: State, t: Task)
    requires Standing(s) && s.stack == [] && (t.DoneTask? ==> !Held(s, t.attempt))
    ensures Keeps(s, RunTask(s, t))
  {
    hide Standing, Keeps, Held, Reject, DiscardOf, Admit, MarkDisconnected;
    SelfKeeps(s);
    match t {
      case PairTask(a) =>
        RejectKeeps(s, a, true);
        if IsPending(s, a) { AskKeeps(s, a); }
      case DoneTask(a, failed) =>
        RejectKeeps(s, a, true);
        RejectKeeps(s, a, false);
        if a < |s.attempts| {
          DiscardKeeps(s, a);
          if s.attempts[a].server.Some? && s.attempts[a].server.value < |s.servers| {
            AdmitKeeps(s, a, s.attempts[a].server.value);
          }
        }
      case ErrorTask(a) => PlainKeeps(s, RunTask(s, t));
      case TeardownTask(v) => if v < |s.servers| { RunTeardownKeeps(s, v); }
      case MarkTask(v) => if RunMark(s, v) != s { MarkKeeps(s, s.servers[v].client); }
      case CloseMarkTask(v) => if RunMark(s, v) != s { MarkKeeps(s, s.servers[v].client); }
    }
  }

  lemma AskKeeps(s: State, a: nat)
    requires a < |s.attempts|
    ensures Keeps(s, SetAttempt(s, a, s.attempts[a].(asked := true)))
  {
    hide GroupOf;
  }

  lemma RunTeardownKeeps(s: State, v: nat)
    requires v < |s.servers| && s.stack == []
    ensures Keeps(s, RunTeardown(s, v))
  {
    var q := RunTeardown(s, v);
    assert forall w: nat :: !GroupOf(q.stack, w);
    PlainKeeps(s, q);
  }

  lemma AuthenticateHeld(s: State, a: nat)
    requires Inv(s) && HeldIntact(s) && a < |s.attempts|
    ensures HeldIntact(AuthenticateCall(s, a))
  {
    FreshFacts(s, |s.servers|);
    SelfKeeps(s);
    RejectKeeps(s, a, true);
    hide Inv, Keeps, Reject;
    var q := AuthenticateCall(s, a);
    if q == Reject(s, a, true) || q == s {
      KeepsHeld(s, q);
    } else if s.attempts[a].server.Some? {
      SpareKeeps(s, a);
      KeepsHeld(s, q);
    } else {
      AttachHeld(s, a);
    }
  }

  lemma SpareKeeps(s: State, a: nat)
    requires a < |s.attempts| && forall b: nat :: Held(s, b) ==> s.attempts[b].server.value < |s.servers|
    ensures Keeps(s, Discard(Spawn(s, s.attempts[a].client), |s.servers|))
  {
    CleanedBy(s.rooms, |s.servers|);
    hide Rooms.Cleanup, GroupOf;
  }

  lemma AttachHeld(s: State, a: nat)
    requires HeldIntact(s) && a < |s.attempts| && s.attempts[a].server == None
    requires |s.servers| !in s.rooms.cleaned && |s.servers| !in s.rooms.roster && !GroupOf(s.stack, |s.servers|)
    requires forall c :: 0 <= c < |s.clients| ==> s.clients[c].server != Some(|s.servers|)
    ensures HeldIntact(SetAttempt(Spawn(s, s.attempts[a].client), a, s.attempts[a].(server := Some(|s.servers|))))
  {
    hide GroupOf;
    var q := SetAttempt(Spawn(s, s.attempts[a].client), a, s.attempts[a].(server := Some(|s.servers|)));
    forall b: nat | Held(q, b) ensures Intact(q, q.attempts[b].server.value) {
      if b != a { assert Held(s, b); }
    }
  }

  lemma CompleteKeeps(s: State, a: nat, failed: bool, encodes: bool)
    requires a < |s.attempts|
    ensures Keeps(s, CompleteCall(s, a, failed, encodes))
  {
    hide GroupOf;
    var q := CompleteCall(s, a, failed, encodes);
    forall b: nat | Held(q, b) ensures Held(s, b) {}
  }

  lemma ConnectKeeps(s: State, c: nat)
    requires c < |s.clients|
    ensures Keeps(s, ConnectCall(s, c))
  {
    hide GroupOf;
    var q := ConnectCall(s, c);
    forall a: nat | Held(q, a) ensures Held(s, a) {}
  }

  lemma DisconnectKeeps(s: State, c: nat)
    requires Standing(s) && c < |s.clients|
    ensures Keeps(s, DisconnectCall(s, c))
  {
    hide Standing, Keeps, Cancel, MarkDisconnected;
    if s.clients[c].connected {
      MarkKeeps(s, c);
      PushKeeps(MarkDisconnected(s, c), Tail(c));
      KeepsTrans(s, MarkDisconnected(s, c), DisconnectCall(s, c));
    } else {
      CancelKeeps(s, c);
    }
  }

  lemma GroupCallHeld(s: State, v: nat, order: seq<nat>)
    requires HeldIntact(s) && v < |s.servers| && !HeldSocket(s, v)
    ensures HeldIntact(GroupCall(s, v, order))
  {
    var q := GroupCall(s, v, order);
    if q != s {
      forall a: nat | Held(q, a) ensures Intact(q, q.attempts[a].server.value) {
        assert Held(s, a);
        GroupFrames(s.stack, Group(order, 0, v));
      }
    }
  }

  lemma CallHeld(s: State, e: Event)
    requires Inv(s) && HeldIntact(s) && !Meddles(s, e) && Enabled(s, e) && !e.Return? && !e.Microtask?
    ensures HeldIntact(Perform(s, e))
  {
    if e.Authenticate? {
      AuthenticateHeld(s, e.attempt);
    } else if e.DisconnectGroup? {
      GroupCallHeld(s, e.server, e.order);
    } else {
      hide Inv, HeldIntact, Held;
      CallKeeps(s, e);
      KeepsHeld(s, Perform(s, e));
    }
  }

  lemma CallKeeps(s: State, e: Event)
    requires Inv(s) && !Meddles(s, e) && Enabled(s, e)
    requires !e.Return? && !e.Microtask? && !e.Authenticate? && !e.DisconnectGroup?
    ensures Keeps(s, Perform(s, e))
  {
    hide Inv, Keeps, Held, HeldSocket, ConnectCall, DisconnectCall, ServerDisconnectCall, CompleteCall, TeardownAll,
         Rooms.Join, Rooms.Leave, Guard, Superseded, Current;
    match e {
      case Connect(c) => ConnectKeeps(s, c);
      case Disconnect(c) => StandingOf(s); DisconnectKeeps(s, c);
      case DisconnectServer(v) => TearKeeps(s, v, false);
      case CloseSpace(space, order) =>
        var p := s.(closed := s.closed + {space});
        PlainKeeps(s, p);
        TeardownAllKeeps(p, order);
        KeepsTrans(s, p, Perform(s, e));
      case Complete(a, failed, encodes) => CompleteKeeps(s, a, failed, encodes);
      case JoinRoom(v, room) => KeepsRoster(s.rooms, v, room); PlainKeeps(s, Perform(s, e));
      case LeaveRoom(v, room) => KeepsRoster(s.rooms, v, room); PlainKeeps(s, Perform(s, e));
      case Emit(v) => PushKeeps(s, Sending(v, false, s.clients[s.servers[v].client].connected));
      case Broadcast(order) => PushKeeps(s, Broadcasting(order));
      case Deliver(i) => PlainKeeps(s, Perform(s, e));
    }
  }

  lemma StandingOf(s: State)
    requires Inv(s)
    ensures Standing(s)
  {}

  lemma KeepsRoster(r: Rooms.State, v: nat, room: Rooms.Room)
    ensures Rooms.Join(r, v, room).roster == r.roster && Rooms.Leave(r, v, room).roster == r.roster
    ensures Rooms.Join(r, v, room).cleaned == r.cleaned && Rooms.Leave(r, v, room).cleaned == r.cleaned
  {}

  lemma StepHeld(s: State, e: Event)
    requires Inv(s) && HeldIntact(s) && !Meddles(s, e)
    ensures HeldIntact(Step(s, e))
  {
    hide Inv, HeldIntact, Meddles, Keeps, Resume, RunTask;
    if Enabled(s, e) {
      match e {
        case Return(encodes) => ResumeKeeps(s, encodes); KeepsHeld(s, Step(s, e));
        case Microtask => MicrotaskKeeps(s); KeepsHeld(s, Step(s, e));
        case _ => CallHeld(s, e);
      }
    }
  }

  /** A pending attempt whose completion is at the head of the queue is still held. */
  lemma HeldNotCleaned(s: State, e: Event)
    requires HeldIntact(s)
    ensures !AdmitsCleaned(s, e)
  {
    if AdmitsCleaned(s, e) {
      var a := s.tasks[0].attempt;
      assert s.tasks[0] in s.tasks;
      assert Held(s, a);
    }
  }

  lemma {:induction false} RunHeld(s: State, events: seq<Event>)
    requires Inv(s) && HeldIntact(s) && NeverMeddles(s, events)
    ensures NeverAdmitsCleaned(s, events)
    decreases |events|
  {
    hide Inv, HeldIntact, Meddles, AdmitsCleaned, Step;
    if events != [] {
      HeldNotCleaned(s, events[0]);
      StepHeld(s, events[0]);
      StepInv(s, events[0]);
      RunHeld(Step(s, events[0]), events[1..]);
    }
  }
}
