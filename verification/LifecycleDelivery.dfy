/**
  Delivery to a client across its successive server sockets: what is sent through one socket
  never reaches the client once a later socket is attached. A packet keeps the guard that
  was captured when it was sent.
 */
module LifecycleDelivery {
  import opened Common
  import Rooms
  import opened Lifecycle
  import opened LifecycleStanding
  import opened LifecycleOutcomes
  import opened LifecycleTeardown
  import opened LifecycleMembership
  import opened LifecycleRuns
  import opened LifecycleHandover
  import opened LifecycleHandoverSteps
  import opened LifecycleHandoverTeardown
  import opened LifecycleHandoverFrames
  import opened LifecycleHandoverTasks
  import opened LifecycleHandoverRuns

  /** A client does not connect from inside its own disconnect. */
  predicate Patient(s: State, e: Event) {
    e.Connect? ==> !InDisconnect(s.stack, e.client)
  }

  ghost predicate NoneNested(attempts: seq<Attempt>) {
    forall a :: 0 <= a < |attempts| ==> !attempts[a].nested
  }

  ghost predicate PendingFor(attempts: seq<Attempt>, c: nat, v: nat) {
    exists a :: 0 <= a < |attempts| && attempts[a].phase == Pending && attempts[a].client == c && attempts[a].server == Some(v)
  }

  /** The socket can never again be the one its client is connected through, nor drain. */
  ghost predicate Dead(clients: seq<Client>, attempts: seq<Attempt>, servers: seq<Server>, rooms: Rooms.State, c: nat, k: nat) {
    && k < |servers| && c < |clients| && !Lingering(rooms, k) && !PendingFor(attempts, c, k)
    && !(clients[c].connected && clients[c].server == Some(k))
  }

  /** At most one socket of each client lingers, and a connected client is connected through it. */
  ghost predicate OnlyOne(clients: seq<Client>, servers: seq<Server>, rooms: Rooms.State) {
    && (forall v, w :: 0 <= v < |servers| && 0 <= w < |servers| && Lingering(rooms, v) && Lingering(rooms, w) ==>
          servers[v].client == servers[w].client ==> v == w)
    && (forall v :: 0 <= v < |servers| && Lingering(rooms, v) && servers[v].client < |clients| ==>
          clients[servers[v].client].connected ==> clients[servers[v].client].server == Some(v))
  }

  /** The socket may still receive what its client is sent. */
  ghost predicate Serving(clients: seq<Client>, attempts: seq<Attempt>, rooms: Rooms.State, c: nat, v: nat) {
    || Lingering(rooms, v)
    || (c < |clients| && clients[c].connected && clients[c].server == Some(v))
    || PendingFor(attempts, c, v)
  }

  ghost predicate Latest(clients: seq<Client>, attempts: seq<Attempt>, servers: seq<Server>, rooms: Rooms.State) {
    forall v :: 0 <= v < |servers| && Serving(clients, attempts, rooms, servers[v].client, v) ==>
      !Superseded(attempts, servers[v].client, v)
  }

  ghost predicate Inactive(servers: seq<Server>, rooms: Rooms.State, stack: seq<Frame>) {
    forall v :: 0 <= v < |servers| && servers[v].active ==> v !in rooms.cleaned && !InClean(stack, v)
  }

  ghost predicate PacketOk(s: State, p: Packet) {
    && p.via < |s.servers|
    && (p.captured.Some? && !p.owned && p.captured != Some(p.via) ==>
          Dead(s.clients, s.attempts, s.servers, s.rooms, s.servers[p.via].client, p.captured.value))
  }

  ghost predicate PacketsOk(s: State) {
    forall p :: p in s.packets ==> PacketOk(s, p)
  }

  /** A recipient that a broadcast under way has still to be sent to. */
  ghost predicate RecipientOk(s: State, v: nat) {
    && v < |s.servers| && s.servers[v].client < |s.clients|
    && Waiting(s.attempts, s.servers, v)
    && (var c := s.servers[v].client;
        s.clients[c].server.Some? && s.clients[c].server != Some(v) ==>
          Dead(s.clients, s.attempts, s.servers, s.rooms, c, s.clients[c].server.value))
  }

  ghost predicate SendersOk(s: State) {
    forall f: Frame :: f in s.stack ==>
      && (f.Sending? && f.broadcast ==> RecipientOk(s, f.server))
      && (f.Broadcasting? ==> forall i :: 0 <= i < |f.order| ==> RecipientOk(s, f.order[i]))
  }

  /** What has been dispatched was sent through the latest socket, or of live attempts' sockets the latest. */
  ghost predicate DispatchOk(log: seq<Observation>) {
    forall o: Observation :: o in log && o.Dispatched? ==>
      if o.owned then !o.overtaken else !o.superseded
  }

  ghost predicate Delivery(s: State) {
    && NoneNested(s.attempts) && OnlyOne(s.clients, s.servers, s.rooms)
    && Latest(s.clients, s.attempts, s.servers, s.rooms)
    && Inactive(s.servers, s.rooms, s.stack)
    && PacketsOk(s) && SendersOk(s) && DispatchOk(s.log)
  }

  // Steps that attach and establish nothing.

  ghost predicate ModestAttempts(attempts: seq<Attempt>, next: seq<Attempt>) {
    && |attempts| <= |next|
    && (forall a :: 0 <= a < |attempts| ==>
          && next[a].client == attempts[a].client && next[a].server == attempts[a].server
          && next[a].nested == attempts[a].nested
          && (next[a].asked ==> attempts[a].asked)
          && (next[a].phase == Pending ==> attempts[a].phase == Pending))
    && (forall a :: |attempts| <= a < |next| ==> next[a].server == None && !next[a].asked && !next[a].nested)
  }

  ghost predicate ModestClients(clients: seq<Client>, next: seq<Client>) {
    && |next| == |clients|
    && forall c :: 0 <= c < |clients| ==>
         next[c].server == clients[c].server && (next[c].connected ==> clients[c].connected)
  }

  ghost predicate ModestServers(servers: seq<Server>, next: seq<Server>) {
    && |next| == |servers|
    && forall v :: 0 <= v < |servers| ==>
         next[v].client == servers[v].client && (next[v].active ==> servers[v].active)
  }

  ghost predicate ModestRooms(s: State, q: State) {
    && (forall v: nat :: Lingering(q.rooms, v) ==> Lingering(s.rooms, v))
    && (forall v :: 0 <= v < |q.servers| && q.servers[v].active && (v in q.rooms.cleaned || InClean(q.stack, v)) ==>
          v in s.rooms.cleaned || InClean(s.stack, v))
  }

  predicate IsSender(f: Frame) {
    (f.Sending? && f.broadcast) || f.Broadcasting?
  }

  ghost predicate Modest(s: State, q: State) {
    && ModestAttempts(s.attempts, q.attempts) && ModestClients(s.clients, q.clients)
    && ModestServers(s.servers, q.servers) && ModestRooms(s, q)
    && q.packets == s.packets
    && (forall f: Frame :: f in q.stack && IsSender(f) ==> f in s.stack)
    && (forall o: Observation :: o in q.log && o.Dispatched? ==> o in s.log)
  }

  lemma ModestPending(attempts: seq<Attempt>, next: seq<Attempt>, c: nat, v: nat)
    requires ModestAttempts(attempts, next)
    ensures PendingFor(next, c, v) ==> PendingFor(attempts, c, v)
    ensures Superseded(next, c, v) ==> Superseded(attempts, c, v)
  {}

  lemma ModestDead(s: State, q: State, c: nat, k: nat)
    requires Modest(s, q) && Dead(s.clients, s.attempts, s.servers, s.rooms, c, k)
    ensures Dead(q.clients, q.attempts, q.servers, q.rooms, c, k)
  {
    hide Lingering;
    ModestPending(s.attempts, q.attempts, c, k);
  }

  lemma ModestOnlyOne(s: State, q: State)
    requires Modest(s, q) && OnlyOne(s.clients, s.servers, s.rooms)
    ensures OnlyOne(q.clients, q.servers, q.rooms)
  {
    hide Lingering;
  }

  lemma ModestLatest(s: State, q: State)
    requires Modest(s, q) && Latest(s.clients, s.attempts, s.servers, s.rooms)
    ensures Latest(q.clients, q.attempts, q.servers, q.rooms)
  {
    hide Lingering, PendingFor, Superseded;
    forall v | 0 <= v < |q.servers| && Serving(q.clients, q.attempts, q.rooms, q.servers[v].client, v)
      ensures !Superseded(q.attempts, q.servers[v].client, v)
    {
      ModestPending(s.attempts, q.attempts, q.servers[v].client, v);
      assert Serving(s.clients, s.attempts, s.rooms, s.servers[v].client, v);
    }
  }

  lemma ModestRecipient(s: State, q: State, v: nat)
    requires Modest(s, q) && RecipientOk(s, v)
    ensures RecipientOk(q, v)
  {
    hide Dead;
    forall a: nat | Rival(q.attempts, q.servers, a, v) ensures !q.attempts[a].asked {
      assert a < |s.attempts| ==> Rival(s.attempts, s.servers, a, v);
    }
    var c := s.servers[v].client;
    if s.clients[c].server.Some? && s.clients[c].server != Some(v) { ModestDead(s, q, c, s.clients[c].server.value); }
  }

  lemma ModestPackets(s: State, q: State)
    requires Modest(s, q) && PacketsOk(s)
    ensures PacketsOk(q)
  {
    hide Dead;
    forall p | p in q.packets ensures PacketOk(q, p) {
      assert PacketOk(s, p);
      if p.captured.Some? && !p.owned && p.captured != Some(p.via) {
        ModestDead(s, q, s.servers[p.via].client, p.captured.value);
      }
    }
  }

  lemma ModestSenders(s: State, q: State)
    requires Modest(s, q) && SendersOk(s)
    ensures SendersOk(q)
  {
    hide RecipientOk;
    forall f: Frame | f in q.stack
      ensures f.Sending? && f.broadcast ==> RecipientOk(q, f.server)
      ensures f.Broadcasting? ==> forall i :: 0 <= i < |f.order| ==> RecipientOk(q, f.order[i])
    {
      if f.Sending? && f.broadcast { ModestRecipient(s, q, f.server); }
      if f.Broadcasting? {
        forall i | 0 <= i < |f.order| ensures RecipientOk(q, f.order[i]) { ModestRecipient(s, q, f.order[i]); }
      }
    }
  }

  lemma ModestKeeps(s: State, q: State)
    requires Delivery(s) && Modest(s, q)
    ensures Delivery(q)
  {
    ModestOnlyOne(s, q);
    ModestLatest(s, q);
    ModestPackets(s, q);
    ModestSenders(s, q);
    hide OnlyOne, Latest, PacketsOk, SendersOk, InClean;
  }

  lemma ModestRoomsTrans(s: State, q: State, r: State)
    requires Modest(s, q) && Modest(q, r)
    ensures ModestRooms(s, r)
  {
    hide Lingering, InClean;
    forall v | 0 <= v < |r.servers| && r.servers[v].active && (v in r.rooms.cleaned || InClean(r.stack, v))
      ensures v in s.rooms.cleaned || InClean(s.stack, v)
    {
      assert q.servers[v].active;
    }
  }

  lemma ModestTrans(s: State, q: State, r: State)
    requires Modest(s, q) && Modest(q, r)
    ensures Modest(s, r)
  {
    ModestRoomsTrans(s, q, r);
    hide Lingering, InClean;
    forall f: Frame | f in r.stack && IsSender(f) ensures f in s.stack { assert f in q.stack; }
    forall o: Observation | o in r.log && o.Dispatched? ensures o in s.log { assert o in q.log; }
  }

  lemma ModestSelf(s: State)
    ensures Modest(s, s)
  {}

  // The modest steps.

  lemma CleanupLingering(r: Rooms.State, v: nat)
    requires Rooms.Coherent(r)
    ensures var q := Rooms.Cleanup(r, v);
            && q.cleaned == r.cleaned + {v} && (forall w: nat :: Lingering(q, w) ==> Lingering(r, w))
  {
    hide Rooms.NoEmptyRoom, Rooms.Mirrored, Rooms.Viewed;
  }

  lemma DiscardModest(s: State, v: Option<nat>)
    requires Rooms.Coherent(s.rooms)
    ensures Modest(s, DiscardOf(s, v))
  {
    hide Rooms.Coherent, Rooms.Cleanup, Lingering, InClean;
    if v.Some? { CleanupLingering(s.rooms, v.value); }
  }

  lemma AbandonModest(s: State, a: nat, phase: Phase)
    requires Rooms.Coherent(s.rooms) && IsPending(s, a) && phase != Pending
    ensures Modest(s, Abandon(s, a, phase)) && Abandon(s, a, phase).stack == s.stack
  {
    hide Rooms.Coherent, Rooms.Cleanup, Lingering, InClean;
    var v := s.attempts[a].server;
    if v.Some? { CleanupLingering(s.rooms, v.value); }
  }

  lemma CancelModest(s: State, c: nat)
    requires Rooms.Coherent(s.rooms) && c < |s.clients|
    ensures Modest(s, Cancel(s, c)) && Cancel(s, c).stack == s.stack
  {
    hide Rooms.Coherent, Abandon, Modest;
    ModestSelf(s);
    var attempt := s.clients[c].attempt;
    if attempt.Some? && IsPending(s, attempt.value) { AbandonModest(s, attempt.value, Cancelled); }
  }

  lemma RejectModest(s: State, a: nat, encodes: bool)
    requires Rooms.Coherent(s.rooms)
    ensures Modest(s, Reject(s, a, encodes))
  {
    hide Rooms.Coherent, Abandon, Lingering, InClean;
    ModestSelf(s);
    if IsPending(s, a) { AbandonModest(s, a, Rejected(encodes)); }
  }

  lemma MarkModest(s: State, c: nat)
    requires c < |s.clients|
    ensures Modest(s, MarkDisconnected(s, c)) && MarkDisconnected(s, c).stack == s.stack
  {
    hide Lingering, InClean;
  }

  lemma CoherentOf(s: State)
    requires Inv(s)
    ensures Rooms.Coherent(s.rooms)
  {
    hide Standing, Outcomes, Protocol, Once, LetGo;
  }

  lemma {:induction false} CancelOthersModest(s: State, i: nat, manager: nat, v: nat)
    requires Inv(s)
    ensures Modest(s, CancelOthers(s, i, manager, v)) && CancelOthers(s, i, manager, v).stack == s.stack
    ensures Inv(CancelOthers(s, i, manager, v))
    decreases |s.clients| - i
  {
    hide Inv, Modest, Rooms.Coherent;
    ModestSelf(s);
    if i < |s.clients| {
      var q := if i in s.pending && s.clients[i].manager == manager && !Owns(s, i, v) then Cancel(s, i) else s;
      CoherentOf(s);
      CancelModest(s, i);
      CancelInv(s, i);
      CancelOthersModest(q, i + 1, manager, v);
      var r := CancelOthers(q, i + 1, manager, v);
      ModestTrans(s, q, r);
    }
  }

  lemma ServerDisconnectModest(s: State, v: nat)
    requires v < |s.servers|
    ensures Modest(s, ServerDisconnectCall(s, v))
  {
    hide Lingering;
    if !s.servers[v].torn { CleanFrames(s.stack, v); }
  }

  lemma {:induction false} TeardownAllModest(s: State, order: seq<nat>)
    ensures Modest(s, TeardownAll(s, order)) && TeardownAll(s, order).stack == s.stack
    decreases |order|
  {
    ModestSelf(s);
    if order != [] {
      var q := if order[0] < |s.servers| then Teardown(s, order[0], true) else s;
      assert Modest(s, q);
      hide Modest, Teardown;
      TeardownAllModest(q, order[1..]);
      ModestTrans(s, q, TeardownAll(q, order[1..]));
    }
  }

  /** Popping a frame, a task, or pushing a frame that neither cleans nor sends. */
  lemma PopModest(s: State)
    requires s.stack != []
    ensures Modest(s, s.(stack := s.stack[1..]))
  {
    hide Lingering;
    PopMembers(s.stack);
  }

  lemma TasksModest(s: State, tasks: seq<Task>)
    ensures Modest(s, s.(tasks := tasks))
  {
    hide Lingering, InClean;
  }

  lemma PushModest(s: State, f: Frame)
    requires !IsClean(f) && !IsSender(f)
    ensures Modest(s, Push(s, f))
  {
    hide Lingering;
  }

  lemma JoinModest(s: State, v: nat, room: Rooms.Room)
    ensures Modest(s, s.(rooms := Rooms.Join(s.rooms, v, room)))
    ensures Modest(s, s.(rooms := Rooms.Leave(s.rooms, v, room)))
  {
    hide InClean;
  }
}
