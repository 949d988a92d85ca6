/** Every step keeps the delivery invariant; what that means for whole runs. */
module LifecycleDeliverySteps {
  import opened Common
  import Rooms
  import opened Lifecycle
  import opened LifecycleStanding
  import opened LifecycleOutcomes
  import opened LifecycleTeardown
  import opened LifecycleMembership
  import opened LifecycleRuns
  import opened LifecycleHandover
  import opened LifecycleHandoverSteps
  import opened LifecycleHandoverTeardown
  import opened LifecycleHandoverFrames
  import opened LifecycleHandoverTasks
  import opened LifecycleHandoverRuns
  import opened LifecycleDelivery

  // Modest calls.

  predicate Special(e: Event) {
    e.Broadcast? || e.Deliver? || e.Authenticate? || e.Return? || e.Microtask?
  }

  lemma ConnectModest(s: State, c: nat)
    requires c < |s.clients| && !InDisconnect(s.stack, c)
    ensures Modest(s, ConnectCall(s, c))
  {
    hide Lingering, InClean;
  }

  lemma CompleteCallModest(s: State, a: nat, failed: bool, encodes: bool)
    requires a < |s.attempts|
    ensures Modest(s, CompleteCall(s, a, failed, encodes))
  {
    hide Lingering, InClean;
  }

  lemma ClosedModest(s: State, space: nat)
    ensures Modest(s, s.(closed := s.closed + {space}))
  {
    hide Lingering, InClean;
  }

  lemma CallModest(s: State, e: Event)
    requires Inv(s) && Enabled(s, e) && Patient(s, e) && !Special(e)
    ensures Modest(s, Perform(s, e))
  {
    hide Inv, Modest, Cancel, MarkDisconnected, ServerDisconnectCall, TeardownAll, CompleteCall, ConnectCall, Rooms.Join,
         Rooms.Leave, Rooms.Coherent, Owns, Snapshot, Roster;
    CoherentOf(s);
    ModestSelf(s);
    match e {
      case Connect(c) => ConnectModest(s, c);
      case Disconnect(c) =>
        CancelModest(s, c);
        MarkModest(s, c);
        PushModest(MarkDisconnected(s, c), Tail(c));
        if s.clients[c].connected { ModestTrans(s, MarkDisconnected(s, c), Perform(s, e)); }
      case DisconnectServer(v) => ServerDisconnectModest(s, v);
      case DisconnectGroup(v, order) => PushModest(s, Group(order, 0, v));
      case CloseSpace(space, order) =>
        var p := s.(closed := s.closed + {space});
        ClosedModest(s, space);
        TeardownAllModest(p, order);
        ModestTrans(s, p, Perform(s, e));
      case Complete(a, failed, encodes) => CompleteCallModest(s, a, failed, encodes);
      case JoinRoom(v, room) => JoinModest(s, v, room);
      case LeaveRoom(v, room) => JoinModest(s, v, room);
      case Emit(v) => PushModest(s, Sending(v, false, s.clients[s.servers[v].client].connected));
    }
  }

  // Microtasks.

  lemma AskDelivery(s: State, a: nat)
    requires Delivery(s) && s.stack == [] && a < |s.attempts|
    ensures Delivery(SetAttempt(s, a, s.attempts[a].(asked := true)))
  {
    AskPending(s, a);
    hide Lingering, PendingFor, Superseded;
    var q := SetAttempt(s, a, s.attempts[a].(asked := true));
    forall p | p in q.packets ensures PacketOk(q, p) { assert PacketOk(s, p); }
    forall v | 0 <= v < |q.servers| && Serving(q.clients, q.attempts, q.rooms, q.servers[v].client, v)
      ensures !Superseded(q.attempts, q.servers[v].client, v)
    {
      assert Serving(s.clients, s.attempts, s.rooms, s.servers[v].client, v);
    }
  }

  lemma AskPending(s: State, a: nat)
    requires a < |s.attempts|
    ensures var q := SetAttempt(s, a, s.attempts[a].(asked := true));
            forall c: nat, v: nat ::
              (PendingFor(q.attempts, c, v) ==> PendingFor(s.attempts, c, v))
              && (Superseded(q.attempts, c, v) ==> Superseded(s.attempts, c, v))
  {}

  lemma AdmitModest(s: State, a: nat, v: nat)
    requires v < |s.servers|
    ensures Modest(s, Admit(s, a, v))
  {
    AdmitRooms(s.rooms, v);
    var q := Admit(s, a, v);
    forall w: nat ensures InClean(q.stack, w) <==> InClean(s.stack, w) {}
    forall w: nat ensures Lingering(q.rooms, w) <==> Lingering(s.rooms, w) {}
    hide Rooms.Join, Rooms.Register, InClean, Lingering;
  }

  lemma RunTeardownModest(s: State, v: nat)
    requires v < |s.servers| && s.stack == []
    ensures Modest(s, RunTeardown(s, v))
  {
    RunTeardownFrames(v);
    assert RunTeardown(s, v).stack == [Clean(v, false)];
    hide Lingering, InClean;
  }

  lemma RunTaskDelivery(s: State, t: Task)
    requires Delivery(s) && Rooms.Coherent(s.rooms) && s.stack == []
    ensures Delivery(RunTask(s, t))
  {
    hide Delivery, Modest, Rooms.Coherent, Reject, DiscardOf, Admit, RunTeardown, MarkDisconnected;
    ModestSelf(s);
    match t {
      case PairTask(a) =>
        RejectModest(s, a, true);
        ModestKeeps(s, Reject(s, a, true));
        if IsPending(s, a) && !SpaceClosed(s, a) { AskDelivery(s, a); }
      case DoneTask(a, failed) =>
        RejectModest(s, a, true);
        RejectModest(s, a, false);
        ModestKeeps(s, Reject(s, a, true));
        ModestKeeps(s, Reject(s, a, false));
        if a < |s.attempts| {
          DiscardModest(s, s.attempts[a].server);
          ModestKeeps(s, DiscardOf(s, s.attempts[a].server));
          if s.attempts[a].server.Some? && s.attempts[a].server.value < |s.servers| {
            AdmitModest(s, a, s.attempts[a].server.value);
            ModestKeeps(s, Admit(s, a, s.attempts[a].server.value));
          }
        }
      case ErrorTask(a) =>
        LogModest(s, ClientError(a));
        ModestKeeps(s, Observe(s, ClientError(a)));
      case TeardownTask(v) =>
        if v < |s.servers| {
          RunTeardownModest(s, v);
          ModestKeeps(s, RunTeardown(s, v));
        }
      case MarkTask(v) => RunMarkDelivery(s, v);
      case CloseMarkTask(v) => RunMarkDelivery(s, v);
    }
  }

  lemma RunMarkDelivery(s: State, v: nat)
    requires Delivery(s)
    ensures Delivery(RunMark(s, v))
  {
    hide Delivery, Modest;
    if RunMark(s, v) != s {
      MarkModest(s, s.servers[v].client);
      ModestKeeps(s, RunMark(s, v));
    }
  }

  lemma LogModest(s: State, o: Observation)
    requires !o.Dispatched?
    ensures Modest(s, Observe(s, o))
  {
    hide Lingering, InClean;
  }

  lemma MicrotaskDelivery(s: State)
    requires Inv(s) && Delivery(s) && s.stack == [] && s.tasks != []
    ensures Delivery(RunTask(s.(tasks := s.tasks[1..]), s.tasks[0]))
  {
    hide Inv, Delivery, Modest, RunTask, Rooms.Coherent;
    CoherentOf(s);
    TasksModest(s, s.tasks[1..]);
    ModestKeeps(s, s.(tasks := s.tasks[1..]));
    RunTaskDelivery(s.(tasks := s.tasks[1..]), s.tasks[0]);
  }

  // Attaching.

  lemma NoOtherWhenAsked(s: State, a: nat)
    requires Inv(s) && Handover(s) && NoneNested(s.attempts) && IsPending(s, a) && s.attempts[a].asked
    ensures forall v: nat :: !Other(s.attempts, s.servers, s.rooms, a, v)
  {
    hide Inv, Homes, Provisional, Claims, Waits, Marks, Lingering, NeverAfter;
    assert PairFifo(s, a);
  }

  lemma AttachOnlyOne(s: State, a: nat)
    requires Standing(s) && Delivery(s) && IsPending(s, a) && s.attempts[a].server == None
    requires forall v: nat :: !Other(s.attempts, s.servers, s.rooms, a, v)
    ensures var q := SetAttempt(Spawn(s, s.attempts[a].client), a, s.attempts[a].(server := Some(|s.servers|)));
            OnlyOne(q.clients, q.servers, q.rooms)
  {
    hide Lingering, Latest, Inactive, PacketsOk, SendersOk, OwnServers;
    var q := SetAttempt(Spawn(s, s.attempts[a].client), a, s.attempts[a].(server := Some(|s.servers|)));
    var c := s.attempts[a].client;
    assert ClientAgrees(s.clients, s.attempts, s.pending, s.connected, c);
    forall v: nat | v < |s.servers| && s.servers[v].client == c ensures !Lingering(s.rooms, v) {
      assert !Other(s.attempts, s.servers, s.rooms, a, v);
    }
  }

  lemma AttachPending(s: State, a: nat, c: nat, v: nat)
    requires Standing(s) && IsPending(s, a) && s.attempts[a].server == None && v < |s.servers|
    ensures var q := SetAttempt(Spawn(s, s.attempts[a].client), a, s.attempts[a].(server := Some(|s.servers|)));
            && (PendingFor(q.attempts, c, v) ==> PendingFor(s.attempts, c, v) && c != s.attempts[a].client)
            && (Superseded(q.attempts, c, v) ==> Superseded(s.attempts, c, v) || c == s.attempts[a].client)
  {
    hide OwnServers, Linked, Flagged;
    var q := SetAttempt(Spawn(s, s.attempts[a].client), a, s.attempts[a].(server := Some(|s.servers|)));
    if PendingFor(q.attempts, c, v) {
      var b :| 0 <= b < |q.attempts| && q.attempts[b].phase == Pending && q.attempts[b].client == c && q.attempts[b].server == Some(v);
      assert b != a && s.attempts[b] == q.attempts[b];
    }
    if Superseded(q.attempts, c, v) {
      var b :| 0 <= b < |q.attempts| && q.attempts[b].client == c && q.attempts[b].server.Some? && q.attempts[b].server.value > v;
      assert b != a ==> s.attempts[b] == q.attempts[b];
    }
  }

  lemma AttachServing(s: State, a: nat, v: nat)
    requires Standing(s) && IsPending(s, a) && s.attempts[a].server == None && v < |s.servers|
    requires !Other(s.attempts, s.servers, s.rooms, a, v)
    ensures var q := SetAttempt(Spawn(s, s.attempts[a].client), a, s.attempts[a].(server := Some(|s.servers|)));
            var d := s.servers[v].client;
            Serving(q.clients, q.attempts, q.rooms, d, v) ==>
              d != s.attempts[a].client && Serving(s.clients, s.attempts, s.rooms, d, v)
  {
    hide Lingering, OwnServers, PendingFor, Flagged, Superseded;
    assert ClientAgrees(s.clients, s.attempts, s.pending, s.connected, s.attempts[a].client);
    AttachPending(s, a, s.servers[v].client, v);
  }

  lemma AttachLatest(s: State, a: nat)
    requires Standing(s) && Delivery(s) && IsPending(s, a) && s.attempts[a].server == None
    requires forall v: nat :: !Other(s.attempts, s.servers, s.rooms, a, v)
    ensures var q := SetAttempt(Spawn(s, s.attempts[a].client), a, s.attempts[a].(server := Some(|s.servers|)));
            Latest(q.clients, q.attempts, q.servers, q.rooms)
  {
    hide OnlyOne, Inactive, PacketsOk, SendersOk, OwnServers, Serving, Flagged, Agreed, Other;
    var n := |s.servers|;
    var q := SetAttempt(Spawn(s, s.attempts[a].client), a, s.attempts[a].(server := Some(n)));
    forall v | 0 <= v < |q.servers| && Serving(q.clients, q.attempts, q.rooms, q.servers[v].client, v)
      ensures !Superseded(q.attempts, q.servers[v].client, v)
    {
      if v < n {
        AttachServing(s, a, v);
        AttachPending(s, a, s.servers[v].client, v);
      }
    }
  }

  lemma AttachPackets(s: State, a: nat)
    requires Standing(s) && Delivery(s) && IsPending(s, a) && s.attempts[a].server == None
    ensures var q := SetAttempt(Spawn(s, s.attempts[a].client), a, s.attempts[a].(server := Some(|s.servers|)));
            PacketsOk(q)
  {
    hide Lingering, OnlyOne, Inactive, Latest, SendersOk, Standing, PendingFor;
    var q := SetAttempt(Spawn(s, s.attempts[a].client), a, s.attempts[a].(server := Some(|s.servers|)));
    forall p | p in q.packets ensures PacketOk(q, p) {
      assert PacketOk(s, p);
      if p.captured.Some? && !p.owned && p.captured != Some(p.via) {
        AttachPending(s, a, s.servers[p.via].client, p.captured.value);
      }
    }
  }

  lemma AttachRecipient(s: State, a: nat, v: nat)
    requires Standing(s) && IsPending(s, a) && s.attempts[a].asked && s.attempts[a].server == None && RecipientOk(s, v)
    ensures var q := SetAttempt(Spawn(s, s.attempts[a].client), a, s.attempts[a].(server := Some(|s.servers|)));
            RecipientOk(q, v)
  {
    hide Lingering, PendingFor, OwnServers, Agreed;
    var q := SetAttempt(Spawn(s, s.attempts[a].client), a, s.attempts[a].(server := Some(|s.servers|)));
    var c := s.servers[v].client;
    assert Rival(s.attempts, s.servers, a, v) <==> c == s.attempts[a].client;
    forall b: nat | Rival(q.attempts, q.servers, b, v) ensures !q.attempts[b].asked {
      assert Rival(s.attempts, s.servers, b, v);
    }
    if s.clients[c].server.Some? && s.clients[c].server != Some(v) {
      AttachPending(s, a, c, s.clients[c].server.value);
    }
  }

  lemma AttachSenders(s: State, a: nat)
    requires Standing(s) && SendersOk(s) && IsPending(s, a) && s.attempts[a].asked && s.attempts[a].server == None
    ensures SendersOk(SetAttempt(Spawn(s, s.attempts[a].client), a, s.attempts[a].(server := Some(|s.servers|))))
  {
    hide RecipientOk, Standing;
    var q := SetAttempt(Spawn(s, s.attempts[a].client), a, s.attempts[a].(server := Some(|s.servers|)));
    forall f: Frame | f in q.stack
      ensures f.Sending? && f.broadcast ==> RecipientOk(q, f.server)
      ensures f.Broadcasting? ==> forall i :: 0 <= i < |f.order| ==> RecipientOk(q, f.order[i])
    {
      if f.Sending? && f.broadcast { AttachRecipient(s, a, f.server); }
      if f.Broadcasting? {
        forall i | 0 <= i < |f.order| ensures RecipientOk(q, f.order[i]) { AttachRecipient(s, a, f.order[i]); }
      }
    }
  }

  lemma NewNotClean(s: State)
    requires Inv(s)
    ensures |s.servers| !in s.rooms.cleaned && !InClean(s.stack, |s.servers|)
  {
    hide Standing, Outcomes, Once, LetGo, Rooms.Coherent, LeftRooms, DrainFrames, Protocol;
  }

  lemma AttachInactive(s: State, c: nat)
    requires Inactive(s.servers, s.rooms, s.stack) && |s.servers| !in s.rooms.cleaned && !InClean(s.stack, |s.servers|)
    ensures Inactive(Spawn(s, c).servers, s.rooms, s.stack)
  {
    hide InClean;
  }

  lemma AttachDelivery(s: State, a: nat)
    requires Inv(s) && Handover(s) && Delivery(s) && IsPending(s, a) && s.attempts[a].asked && s.attempts[a].server == None
    ensures Delivery(SetAttempt(Spawn(s, s.attempts[a].client), a, s.attempts[a].(server := Some(|s.servers|))))
  {
    NoOtherWhenAsked(s, a);
    NewNotClean(s);
    hide Outcomes, Protocol, Membership, Once, LetGo, Handover, Standing, Other, InClean;
    AttachOnlyOne(s, a);
    AttachLatest(s, a);
    AttachPackets(s, a);
    AttachSenders(s, a);
    AttachInactive(s, s.attempts[a].client);
    hide OnlyOne, Latest, PacketsOk, SendersOk, Inactive;
  }

  lemma SpareDelivery(s: State, c: nat)
    requires Inv(s) && Delivery(s) && c < |s.clients|
    ensures Delivery(Discard(Spawn(s, c), |s.servers|))
  {
    FreshFacts(s, |s.servers|);
    NewNotClean(s);
    CoherentOf(s);
    CleanupLingering(s.rooms, |s.servers|);
    hide Inv, Rooms.Cleanup, Rooms.Coherent, InClean;
    var n := |s.servers|;
    var q := Discard(Spawn(s, c), n);
    SpareLists(s, q);
  }

  lemma SpareLists(s: State, q: State)
    requires Delivery(s) && |q.servers| == |s.servers| + 1 && !q.servers[|s.servers|].active
    requires forall v :: 0 <= v < |s.servers| ==> q.servers[v] == s.servers[v]
    requires q.clients == s.clients && q.attempts == s.attempts && q.packets == s.packets && q.stack == s.stack && q.log == s.log
    requires q.rooms.cleaned == s.rooms.cleaned + {|s.servers|}
    requires |s.servers| !in q.rooms.draining
    requires forall v: nat :: Lingering(q.rooms, v) ==> Lingering(s.rooms, v)
    requires forall d :: 0 <= d < |s.clients| ==> s.clients[d].server != Some(|s.servers|)
    requires forall b :: 0 <= b < |s.attempts| ==> s.attempts[b].server != Some(|s.servers|)
    ensures Delivery(q)
  {
    var n := |s.servers|;
    assert !Lingering(q.rooms, n);
    hide Lingering, InClean;
    forall p | p in q.packets ensures PacketOk(q, p) { assert PacketOk(s, p); }
    assert SendersOk(q) by { SpareSenders(s, q); }
    forall v | 0 <= v < |q.servers| && Serving(q.clients, q.attempts, q.rooms, q.servers[v].client, v)
      ensures !Superseded(q.attempts, q.servers[v].client, v)
    {
      assert v < n;
      assert Serving(s.clients, s.attempts, s.rooms, s.servers[v].client, v);
    }
  }

  lemma SpareSenders(s: State, q: State)
    requires SendersOk(s) && |q.servers| == |s.servers| + 1
    requires forall v :: 0 <= v < |s.servers| ==> q.servers[v] == s.servers[v]
    requires q.clients == s.clients && q.attempts == s.attempts && q.stack == s.stack
    requires forall v: nat :: Lingering(q.rooms, v) ==> Lingering(s.rooms, v)
    ensures SendersOk(q)
  {
    hide Lingering, PendingFor;
    forall v: nat | RecipientOk(s, v) ensures RecipientOk(q, v) {
      forall a: nat | Rival(q.attempts, q.servers, a, v) ensures !q.attempts[a].asked {
        assert Rival(s.attempts, s.servers, a, v);
      }
    }
  }

  lemma AuthenticateDelivery(s: State, a: nat)
    requires Inv(s) && Handover(s) && Delivery(s) && a < |s.attempts|
    ensures Delivery(AuthenticateCall(s, a))
  {
    CoherentOf(s);
    hide Inv, Handover, Delivery, Modest, Rooms.Coherent, Reject;
    if s.attempts[a].asked && IsPending(s, a) {
      if SpaceClosed(s, a) {
        RejectModest(s, a, true);
        ModestKeeps(s, Reject(s, a, true));
      } else if s.attempts[a].server.Some? {
        SpareDelivery(s, s.attempts[a].client);
      } else {
        AttachDelivery(s, a);
      }
    }
  }

  // Establishing.

  lemma EstablishPending(s: State, q: State, a: nat, c: nat, v: nat)
    requires IsPending(s, a) && q == CompleteAttempt(s.(stack := []), a)
    ensures PendingFor(q.attempts, c, v) ==> PendingFor(s.attempts, c, v)
    ensures Superseded(q.attempts, c, v) ==> Superseded(s.attempts, c, v)
  {
    if PendingFor(q.attempts, c, v) {
      var b :| 0 <= b < |q.attempts| && q.attempts[b].phase == Pending && q.attempts[b].client == c && q.attempts[b].server == Some(v);
      assert s.attempts[b] == q.attempts[b];
    }
  }

  lemma EstablishLists(s: State, q: State, a: nat)
    requires Standing(s) && Delivery(s) && IsPending(s, a) && s.attempts[a].server.Some?
    requires forall v: nat :: !Other(s.attempts, s.servers, s.rooms, a, v)
    requires q == CompleteAttempt(s.(stack := []), a)
    ensures OnlyOne(q.clients, q.servers, q.rooms) && Latest(q.clients, q.attempts, q.servers, q.rooms)
  {
    hide Lingering, Inactive, PacketsOk, SendersOk, OwnServers, Superseded, Agreed, Flagged;
    var c := s.attempts[a].client;
    forall v | 0 <= v < |q.servers| && Lingering(q.rooms, v) && q.servers[v].client == c ensures q.clients[c].server == Some(v) {
      assert !Other(s.attempts, s.servers, s.rooms, a, v);
    }
    assert PendingFor(s.attempts, c, s.attempts[a].server.value);
    hide PendingFor;
    forall v | 0 <= v < |q.servers| && Serving(q.clients, q.attempts, q.rooms, q.servers[v].client, v)
      ensures !Superseded(q.attempts, q.servers[v].client, v)
    {
      EstablishPending(s, q, a, q.servers[v].client, v);
      assert Serving(s.clients, s.attempts, s.rooms, s.servers[v].client, v);
    }
  }

  lemma EstablishPackets(s: State, q: State, a: nat)
    requires Standing(s) && Delivery(s) && IsPending(s, a) && s.attempts[a].server.Some?
    requires q == CompleteAttempt(s.(stack := []), a)
    ensures PacketsOk(q)
  {
    hide Lingering, Inactive, OnlyOne, Latest, SendersOk, Standing;
    assert PendingFor(s.attempts, s.attempts[a].client, s.attempts[a].server.value);
    hide PendingFor;
    forall p | p in q.packets ensures PacketOk(q, p) {
      assert PacketOk(s, p);
      if p.captured.Some? && !p.owned && p.captured != Some(p.via) {
        EstablishPending(s, q, a, s.servers[p.via].client, p.captured.value);
      }
    }
  }

  lemma EstablishInactive(s: State, q: State, a: nat)
    requires Inactive(s.servers, s.rooms, s.stack) && s.stack == [AfterConnection(a)] && IsPending(s, a)
    requires q == CompleteAttempt(s.(stack := []), a)
    ensures Inactive(q.servers, q.rooms, q.stack) && SendersOk(q)
  {}

  lemma EstablishDelivery(s: State, a: nat)
    requires Inv(s) && Handover(s) && Delivery(s) && s.stack != [] && s.stack[0] == AfterConnection(a)
    ensures Delivery(CompleteAttempt(s.(stack := s.stack[1..]), a))
  {
    AfterConnectionFacts(s, a);
    CoherentOf(s);
    assert s.stack[1..] == [];
    var p := s.(stack := []);
    var q := CompleteAttempt(p, a);
    if IsPending(s, a) {
      AnnouncedAlone(s, a);
      hide Outcomes, Protocol, Membership, Once, LetGo, Handover, Standing, Other, Rooms.Coherent;
      EstablishLists(s, q, a);
      EstablishPackets(s, q, a);
      EstablishInactive(s, q, a);
      hide OnlyOne, Latest, PacketsOk, SendersOk, Inactive;
    } else {
      hide Inv, Handover, Delivery, Modest, DiscardOf, Rooms.Coherent;
      PopModest(s);
      ModestKeeps(s, p);
      DiscardModest(p, p.attempts[a].server);
      ModestKeeps(p, DiscardOf(p, p.attempts[a].server));
    }
  }

  lemma AnnouncedAlone(s: State, a: nat)
    requires Handover(s) && IsPending(s, a) && s.stack == [AfterConnection(a)]
    ensures forall v: nat :: !Other(s.attempts, s.servers, s.rooms, a, v)
  {
    assert DoneFifo(s, a);
    assert AfterConnection(a) in s.stack;
  }

  // Sending.

  lemma RosterRecipient(s: State, v: nat)
    requires Inv(s) && Handover(s) && Delivery(s) && v in s.rooms.roster
    ensures RecipientOk(s, v)
  {
    RosterInRange(s, v);
    hide Outcomes, Protocol, Membership, Once, LetGo, Homes, Provisional, Claims, Waits, Marks, NeverAfter, Inactive, Latest,
         PacketsOk, SendersOk;
    assert Lingering(s.rooms, v);
    hide Lingering;
    forall a: nat | Rival(s.attempts, s.servers, a, v) ensures !s.attempts[a].asked {
      assert PairFifo(s, a);
      assert Other(s.attempts, s.servers, s.rooms, a, v);
    }
    var c := s.servers[v].client;
    if s.clients[c].server.Some? && s.clients[c].server != Some(v) {
      NotPendingFor(s, v, c, s.clients[c].server.value);
    }
  }

  lemma RosterInRange(s: State, v: nat)
    requires Inv(s) && v in s.rooms.roster
    ensures v < |s.servers|
  {
    hide Standing, Outcomes, Protocol, Once, LetGo, Rooms.Coherent;
  }

  lemma NotPendingFor(s: State, v: nat, c: nat, k: nat)
    requires Flagged(s.attempts) && Waiting(s.attempts, s.servers, v) && v < |s.servers| && s.servers[v].client == c && k != v
    ensures !PendingFor(s.attempts, c, k)
  {
    forall b | 0 <= b < |s.attempts| && s.attempts[b].phase == Pending && s.attempts[b].client == c
      ensures s.attempts[b].server != Some(k)
    {
      assert s.attempts[b].server != Some(v) ==> Rival(s.attempts, s.servers, b, v);
    }
  }

  lemma BroadcastDelivery(s: State, order: seq<nat>)
    requires Inv(s) && Handover(s) && Delivery(s) && forall i :: 0 <= i < |order| ==> order[i] in s.rooms.roster
    ensures Delivery(BroadcastCall(s, order))
  {
    forall i | 0 <= i < |order| ensures RecipientOk(s, order[i]) { RosterRecipient(s, order[i]); }
    hide Inv, Handover;
    SenderDelivery(s, Broadcasting(order));
  }

  lemma SenderDelivery(s: State, f: Frame)
    requires Delivery(s) && (f.Sending? || f.Broadcasting?)
    requires f.Sending? && f.broadcast ==> RecipientOk(s, f.server)
    requires f.Broadcasting? ==> forall i :: 0 <= i < |f.order| ==> RecipientOk(s, f.order[i])
    ensures Delivery(Push(s, f))
  {
    hide OnlyOne, Latest, RecipientOk, Dead;
    var q := Push(s, f);
    forall v: nat ensures RecipientOk(q, v) <==> RecipientOk(s, v) { SameRecipient(s, q, v); }
    forall p | p in q.packets ensures PacketOk(q, p) { assert PacketOk(s, p); }
    forall v: nat ensures InClean(q.stack, v) <==> InClean(s.stack, v) {}
  }

  lemma SameRecipient(s: State, q: State, v: nat)
    requires q.clients == s.clients && q.attempts == s.attempts && q.servers == s.servers && q.rooms == s.rooms
    ensures RecipientOk(q, v) <==> RecipientOk(s, v)
  {}

  lemma BroadcastingDelivery(s: State, order: seq<nat>)
    requires Delivery(s) && forall i :: 0 <= i < |order| ==> RecipientOk(s, order[i])
    ensures Delivery(BroadcastingResume(s, order))
  {
    hide Delivery, RecipientOk;
    if order != [] {
      var q := Push(s, Broadcasting(order[1..]));
      SenderDelivery(s, Broadcasting(order[1..]));
      SameRecipient(s, q, order[0]);
      if order[0] < |s.servers| && s.servers[order[0]].client < |s.clients| {
        SenderDelivery(q, Sending(order[0], true, s.clients[s.servers[order[0]].client].connected));
      }
    }
  }

  /** An active socket is the one its client would be delivered to. */
  lemma ActiveIsCurrent(s: State, v: nat)
    requires Inv(s) && Handover(s) && Delivery(s) && v < |s.servers| && s.servers[v].active
    ensures Current(s.clients, s.attempts, s.servers[v].client) == Some(v)
  {
    hide Outcomes, Protocol, Membership, Once, LetGo, Provisional, Claims, Waits, Marks, NeverAfter, Latest, OnlyOne,
         PacketsOk, SendersOk, InClean;
    var c := s.servers[v].client;
    assert v !in s.rooms.cleaned;
    assert HomeOf(s.clients, s.attempts, s.servers, s.stack, v);
    assert ClientAgrees(s.clients, s.attempts, s.pending, s.connected, c);
    if s.clients[c].attempt.Some? {
      var b := s.clients[c].attempt.value;
      if s.attempts[b].phase == Pending {
        assert PairFifo(s, b);
        assert s.attempts[b].asked ==> !Other(s.attempts, s.servers, s.rooms, b, v);
      }
    }
  }

  lemma RecipientIsCurrent(s: State, v: nat)
    requires Standing(s) && RecipientOk(s, v)
    ensures var c := s.servers[v].client;
            var current := Current(s.clients, s.attempts, c);
            current.Some? && current != Some(v) ==> Dead(s.clients, s.attempts, s.servers, s.rooms, c, current.value)
  {
    hide OwnServers, Dead;
    var c := s.servers[v].client;
    assert ClientAgrees(s.clients, s.attempts, s.pending, s.connected, c);
    if s.clients[c].attempt.Some? {
      var b := s.clients[c].attempt.value;
      assert s.attempts[b].phase == Pending && s.attempts[b].server != Some(v) ==> Rival(s.attempts, s.servers, b, v);
    }
  }

  lemma SendDelivery(s: State, p: Packet)
    requires Delivery(s) && PacketOk(s, p)
    ensures Delivery(s.(packets := s.packets + [p]))
  {
    hide OnlyOne, Latest, Inactive, RecipientOk, Dead;
    var q := s.(packets := s.packets + [p]);
    forall v: nat ensures RecipientOk(q, v) <==> RecipientOk(s, v) { SameRecipient(s, q, v); }
    forall r | r in q.packets ensures PacketOk(q, r) { assert PacketOk(s, r); }
  }

  lemma SendingDelivery(s: State, v: nat, broadcast: bool, was: bool, encodes: bool)
    requires Inv(s) && Handover(s) && Delivery(s)
    requires s.stack != [] && s.stack[0] == Sending(v, broadcast, was)
    ensures Delivery(SendingResume(s.(stack := s.stack[1..]), v, broadcast, was, encodes))
  {
    var p := s.(stack := s.stack[1..]);
    assert s.stack[0] in s.stack;
    if v < |s.servers| && s.servers[v].client < |s.clients| && (broadcast || s.servers[v].active) {
      if broadcast { RecipientIsCurrent(s, v); } else { ActiveIsCurrent(s, v); }
      var c := s.servers[v].client;
      var packet := Packet(v, was && !s.clients[c].connected, Current(s.clients, s.attempts, c));
      assert PacketOk(s, packet);
      hide Inv, Handover, Delivery, Modest;
      PopModest(s);
      ModestKeeps(s, p);
      SendDelivery(p, packet);
    } else {
      hide Inv, Handover, Delivery, Modest;
      PopModest(s);
      ModestKeeps(s, p);
    }
  }

  // Dispatch.

  lemma GuardMeans(s: State, p: Packet)
    requires Inv(s) && Delivery(s) && p in s.packets && p.via < |s.servers| && s.servers[p.via].client < |s.clients|
    requires Guard(s, p)
    ensures var c := s.servers[p.via].client;
            if p.owned then !Overtaken(s.attempts, c, p.via) else !Superseded(s.attempts, c, p.via)
  {
    hide Outcomes, Protocol, Membership, Once, LetGo, OnlyOne, Inactive, SendersOk, Superseded, PendingFor;
    assert PacketOk(s, p);
    var c := s.servers[p.via].client;
    assert ClientAgrees(s.clients, s.attempts, s.pending, s.connected, c);
    if !p.owned {
      assert p.captured == Some(p.via);
      assert Serving(s.clients, s.attempts, s.rooms, c, p.via);
    }
  }

  lemma DeliverDelivery(s: State, i: nat)
    requires Inv(s) && Delivery(s) && i < |s.packets|
    ensures Delivery(DeliverCall(s, i))
  {
    var p := s.packets[i];
    assert p in s.packets;
    if p.via < |s.servers| && s.servers[p.via].client < |s.clients| && Guard(s, p) { GuardMeans(s, p); }
    hide Inv, OnlyOne, Latest, Inactive, RecipientOk, Dead, Guard, Current, Superseded;
    var q := DeliverCall(s, i);
    forall v: nat ensures RecipientOk(q, v) <==> RecipientOk(s, v) { SameRecipient(s, q, v); }
    forall r | r in q.packets ensures PacketOk(q, r) {
      assert r in s.packets;
      assert PacketOk(s, r);
    }
  }

  // Frames.

  lemma CleanModest(s: State, v: nat, sync: bool)
    requires s.stack != [] && s.stack[0] == Clean(v, sync) && v < |s.servers|
    ensures Modest(s, CleanResume(s.(stack := s.stack[1..]), v, sync))
  {
    CleanStackFacts(s.stack, CleanEnd(v, sync));
    PopMembers(s.stack);
    BeginLingering(s.rooms, v);
    assert s.stack[0] in s.stack;
    assert InClean(s.stack, v);
    hide Lingering, InClean, Rooms.CleanBegin, StackDoomed, GroupOf;
  }

  lemma BeginLingering(r: Rooms.State, v: nat)
    ensures var q := Rooms.CleanBegin(r, v);
            q.cleaned == r.cleaned + {v} && (forall w: nat :: Lingering(q, w) <==> Lingering(r, w))
  {}

  lemma CleanEndModest(s: State, v: nat, sync: bool)
    requires s.stack != [] && s.stack[0] == CleanEnd(v, sync)
    ensures Modest(s, CleanEndResume(s.(stack := s.stack[1..]), v, sync))
  {
    PopMembers(s.stack);
    var q := CleanEndResume(s.(stack := s.stack[1..]), v, sync);
    forall f: Frame ensures f in q.stack <==> f == Ended(v, sync) || f in s.stack[1..] {}
  }

  lemma EndedModest(s: State, v: nat, sync: bool)
    ensures Modest(s, EndedResume(s, v, sync))
  {
    hide Lingering, InClean;
  }

  lemma TailModest(s: State, c: nat)
    ensures Modest(s, TailResume(s, c))
  {
    hide Lingering, InClean;
  }

  lemma GroupNextModest(s: State, order: seq<nat>, next: nat, v: nat)
    requires Inv(s) && v < |s.servers| && s.stack != [] && s.stack[0] == Group(order, next, v)
    ensures Modest(s, GroupNext(s.(stack := s.stack[1..]), order, next, v))
  {
    hide Modest, CancelOthers, ServerDisconnectCall, Inv;
    var p := s.(stack := s.stack[1..]);
    PopModest(s);
    if next < |order| {
      var q := Push(p, Group(order, next + 1, v));
      PushModest(p, Group(order, next + 1, v));
      ModestTrans(s, p, q);
      var c := order[next];
      if c < |p.clients| && p.clients[c].connected && p.clients[c].server.Some?
         && p.clients[c].server.value < |p.servers|
      {
        ServerDisconnectModest(q, p.clients[c].server.value);
        ModestTrans(s, q, ServerDisconnectCall(q, p.clients[c].server.value));
      }
    } else {
      var m := ManagerOf(p, v);
      var r := CancelOthers(p, 0, m, v);
      CancelOthersModest(s, 0, m, v);
      CancelOthersStack(s, 0, m, v, s.stack[1..]);
      var t := CancelOthers(s, 0, m, v);
      assert r == t.(stack := t.stack[1..]);
      PopModest(t);
      ModestTrans(s, t, r);
      ServerDisconnectModest(r, v);
      ModestTrans(s, r, ServerDisconnectCall(r, v));
    }
  }

  lemma BroadcastHead(s: State)
    requires SendersOk(s) && s.stack != [] && s.stack[0].Broadcasting?
    ensures forall i :: 0 <= i < |s.stack[0].order| ==> RecipientOk(s, s.stack[0].order[i])
  {
    hide RecipientOk;
    assert s.stack[0] in s.stack;
  }

  lemma FlushedModest(s: State, a: nat, encodes: bool)
    ensures Modest(s, Resume(s, Flushing(a), encodes))
  {
    ModestSelf(s);
    LogModest(s, ClientConnect(a));
    hide Modest;
  }

  /** Frames whose rest is modest. */
  predicate Plain(f: Frame) {
    !f.AfterConnection? && !f.Sending? && !f.Broadcasting?
  }

  lemma ReturnModest(s: State, encodes: bool)
    requires Inv(s) && s.stack != [] && Plain(s.stack[0])
    ensures Modest(s, Resume(s.(stack := s.stack[1..]), s.stack[0], encodes))
  {
    hide Inv, Modest, TailResume, CleanResume, CleanEndResume, EndedResume, GroupNext, CompleteAttempt, SendingResume,
         BroadcastingResume, IsConnected;
    var p := s.(stack := s.stack[1..]);
    var f := s.stack[0];
    PopModest(s);
    match f {
      case Flushing(a) => FlushedModest(p, a, encodes); ModestTrans(s, p, Resume(p, f, encodes));
      case Tail(c) => TailModest(p, c); ModestTrans(s, p, TailResume(p, c));
      case _ => TeardownModest(s, f, encodes);
    }
  }

  /** The frames of a teardown, or of a group operation made of teardowns. */
  lemma TeardownModest(s: State, f: Frame, encodes: bool)
    requires Inv(s) && s.stack != [] && s.stack[0] == f && (f.Clean? || f.CleanEnd? || f.Ended? || f.Group?)
    ensures Modest(s, Resume(s.(stack := s.stack[1..]), f, encodes))
  {
    FrameHeadOf(s);
    hide Inv, Modest, CleanResume, CleanEndResume, EndedResume, GroupNext;
    var p := s.(stack := s.stack[1..]);
    match f {
      case Clean(v, sync) => CleanModest(s, v, sync);
      case CleanEnd(v, sync) => CleanEndModest(s, v, sync);
      case Ended(v, sync) => PopModest(s); EndedModest(p, v, sync); ModestTrans(s, p, EndedResume(p, v, sync));
      case Group(order, next, v) => GroupNextModest(s, order, next, v);
    }
  }

  lemma BroadcastingReturn(s: State, order: seq<nat>)
    requires Delivery(s) && s.stack != [] && s.stack[0] == Broadcasting(order)
    ensures Delivery(BroadcastingResume(s.(stack := s.stack[1..]), order))
  {
    BroadcastHead(s);
    hide Delivery, Modest, RecipientOk, BroadcastingResume;
    var p := s.(stack := s.stack[1..]);
    PopModest(s);
    ModestKeeps(s, p);
    forall i | 0 <= i < |order| ensures RecipientOk(p, order[i]) { SameRecipient(s, p, order[i]); }
    BroadcastingDelivery(p, order);
  }

  lemma ReturnDelivery(s: State, encodes: bool)
    requires Inv(s) && Handover(s) && Delivery(s) && s.stack != []
    ensures Delivery(Resume(s.(stack := s.stack[1..]), s.stack[0], encodes))
  {
    hide Inv, Handover, Delivery, Modest, CompleteAttempt, BroadcastingResume, SendingResume, TailResume, CleanResume,
         CleanEndResume, EndedResume, GroupNext;
    var p := s.(stack := s.stack[1..]);
    var f := s.stack[0];
    if Plain(f) {
      ReturnModest(s, encodes);
      ModestKeeps(s, Resume(p, f, encodes));
    } else if f.AfterConnection? {
      EstablishDelivery(s, f.attempt);
    } else if f.Sending? {
      SendingDelivery(s, f.server, f.broadcast, f.wasConnected, encodes);
    } else {
      BroadcastingReturn(s, f.order);
    }
  }

  lemma FrameHeadOf(s: State)
    requires Inv(s) && s.stack != []
    ensures s.stack[0].Clean? ==> s.stack[0].server < |s.servers|
    ensures s.stack[0].Group? ==> s.stack[0].initiator < |s.servers|
  {
    hide Standing, Outcomes, Protocol, Once, LetGo;
    FrameHead(s);
  }

  lemma StepDelivery(s: State, e: Event)
    requires Inv(s) && Handover(s) && Delivery(s) && Patient(s, e)
    ensures Delivery(Step(s, e))
  {
    hide Inv, Handover, Delivery, Modest, Resume, RunTask, AuthenticateCall, BroadcastCall, DeliverCall;
    if Enabled(s, e) {
      match e {
        case Broadcast(order) => BroadcastDelivery(s, order);
        case Deliver(i) => DeliverDelivery(s, i);
        case Authenticate(a) => AuthenticateDelivery(s, a);
        case Return(encodes) => ReturnDelivery(s, encodes);
        case Microtask => MicrotaskDelivery(s);
        case _ =>
          CallModest(s, e);
          ModestKeeps(s, Perform(s, e));
      }
    }
  }

  // Whole runs.

  /** No client connects from inside its own disconnect. */
  ghost predicate PatientRun(s: State, events: seq<Event>)
    decreases |events|
  {
    events == [] || (Patient(s, events[0]) && PatientRun(Step(s, events[0]), events[1..]))
  }

  lemma InitialDelivery(s: State)
    requires Initial(s)
    ensures Delivery(s)
  {}

  lemma {:induction false} RunDelivery(s: State, events: seq<Event>)
    requires Inv(s) && Handover(s) && Delivery(s) && MannerlyRun(s, events) && PatientRun(s, events)
    ensures Delivery(Run(s, events)) && Handover(Run(s, events)) && Inv(Run(s, events))
    decreases |events|
  {
    hide Inv, Handover, Delivery, Step, Mannerly, Patient;
    if events != [] {
      StepDelivery(s, events[0]);
      StepHandover(s, events[0]);
      StepInv(s, events[0]);
      RunDelivery(Step(s, events[0]), events[1..]);
    }
  }
}
