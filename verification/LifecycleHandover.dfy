/**
  Handing a client over from one server socket to the next. A socket that is still in
  the room indexes always has a home: the client's pending attempt, its connection, or
  a teardown that is queued or under way. The FIFO order of microtasks keeps the homes
  of successive sockets apart.
 */
module LifecycleHandover {
  import opened Common
  import Rooms
  import opened Lifecycle
  import opened LifecycleStanding
  import opened LifecycleOutcomes
  import opened LifecycleTeardown
  import opened LifecycleMembership
  import opened LifecycleRuns

  /** Not cleaned yet, or inside the adapter's removal hook. */
  ghost predicate Lingering(rooms: Rooms.State, v: nat) {
    v !in rooms.cleaned || v in rooms.draining
  }

  ghost predicate Attached(clients: seq<Client>, attempts: seq<Attempt>, c: nat, v: nat)
    requires c < |clients|
  {
    && clients[c].attempt.Some? && clients[c].attempt.value < |attempts|
    && attempts[clients[c].attempt.value].phase == Pending
    && attempts[clients[c].attempt.value].server == Some(v)
  }

  ghost predicate HomeOf(clients: seq<Client>, attempts: seq<Attempt>, servers: seq<Server>, stack: seq<Frame>, v: nat)
    requires v < |servers|
  {
    var c := servers[v].client;
    && c < |clients|
    && (|| Attached(clients, attempts, c, v)
        || (clients[c].server == Some(v) && (clients[c].connected || Tail(c) in stack || servers[v].torn)))
  }

  ghost predicate Homes(s: State) {
    forall v :: 0 <= v < |s.servers| && v !in s.rooms.cleaned ==>
      HomeOf(s.clients, s.attempts, s.servers, s.stack, v)
  }

  /** The deferred completion of the attempt has not run. */
  ghost predicate NotYetDone(attempts: seq<Attempt>, tasks: seq<Task>, a: nat)
    requires a < |attempts|
  {
    !attempts[a].completed || DoneQueued(tasks, a)
  }

  ghost predicate GroupOf(stack: seq<Frame>, v: nat) {
    exists f: Frame :: f in stack && f.Group? && f.initiator == v
  }

  /** A socket before its admission: in no roster, torn by nobody, never its client's connection. */
  ghost predicate Unadmitted(clients: seq<Client>, attempts: seq<Attempt>, servers: seq<Server>, rooms: Rooms.State,
                             stack: seq<Frame>, a: nat)
    requires a < |attempts| && attempts[a].server.Some?
  {
    var v := attempts[a].server.value;
    && v < |servers| && attempts[a].client < |clients|
    && v !in rooms.roster && !servers[v].torn && clients[attempts[a].client].server != Some(v)
    && !GroupOf(stack, v)
    && (attempts[a].phase == Pending ==> v !in rooms.cleaned)
  }

  ghost predicate Provisional(s: State) {
    forall a :: 0 <= a < |s.attempts| && s.attempts[a].server.Some? && NotYetDone(s.attempts, s.tasks, a) ==>
      Unadmitted(s.clients, s.attempts, s.servers, s.rooms, s.stack, a)
  }

  ghost predicate RosterLive(rooms: Rooms.State) {
    forall v :: v in rooms.roster ==> Lingering(rooms, v)
  }

  /** In the queue, no `x` comes after a `y`. */
  ghost predicate NeverAfter(tasks: seq<Task>, x: Task, y: Task) {
    forall i, j :: 0 <= i < j < |tasks| && tasks[i] == y ==> tasks[j] != x
  }

  lemma NeverAfterAppend(tasks: seq<Task>, x: Task, y: Task, z: Task)
    requires NeverAfter(tasks, x, y) && (z == x ==> y !in tasks)
    ensures NeverAfter(tasks + [z], x, y)
  {}

  lemma NeverAfterPop(tasks: seq<Task>, x: Task, y: Task)
    requires NeverAfter(tasks, x, y) && tasks != []
    ensures NeverAfter(tasks[1..], x, y)
    ensures tasks[0] == y ==> x !in tasks[1..]
  {}

  /** A synchronous teardown of `v`, or a group operation it initiated, is under way. */
  ghost predicate StackDoomed(stack: seq<Frame>, v: nat) {
    Clean(v, true) in stack || CleanEnd(v, true) in stack || Ended(v, true) in stack || GroupOf(stack, v)
  }

  ghost predicate Doomed(servers: seq<Server>, tasks: seq<Task>, stack: seq<Frame>, v: nat) {
    StackDoomed(stack, v) || MarkTask(v) in tasks || (v < |servers| && servers[v].closing)
  }

  /** The server has announced this attempt of `v`'s client; the client is about to connect. */
  predicate Announced(attempts: seq<Attempt>, servers: seq<Server>, stack: seq<Frame>, a: nat, v: nat) {
    && a < |attempts| && v < |servers| && AfterConnection(a) in stack
    && attempts[a].phase == Pending && attempts[a].client == servers[v].client
  }

  /** If `v`'s client is connected, or about to be, then through `v`. */
  ghost predicate Claimed(clients: seq<Client>, attempts: seq<Attempt>, servers: seq<Server>, stack: seq<Frame>, v: nat) {
    && v < |servers| && servers[v].client < |clients|
    && (clients[servers[v].client].connected ==> clients[servers[v].client].server == Some(v))
    && (forall a: nat :: Announced(attempts, servers, stack, a, v) ==> attempts[a].server == Some(v))
  }

  /** A pending attempt of `v`'s client that `v` is not attached to. */
  predicate Rival(attempts: seq<Attempt>, servers: seq<Server>, a: nat, v: nat) {
    && a < |attempts| && v < |servers| && attempts[a].client == servers[v].client
    && attempts[a].phase == Pending && attempts[a].server != Some(v)
  }

  /** No rival has been asked for auth. */
  ghost predicate Waiting(attempts: seq<Attempt>, servers: seq<Server>, v: nat) {
    forall a: nat :: Rival(attempts, servers, a, v) ==> !attempts[a].asked
  }

  /** A rival completes after the deferred disconnection by `v`. */
  ghost predicate MarkedFirst(attempts: seq<Attempt>, servers: seq<Server>, tasks: seq<Task>, v: nat) {
    forall a: nat, f :: Rival(attempts, servers, a, v) ==> NeverAfter(tasks, MarkTask(v), DoneTask(a, f))
  }

  ghost predicate Claims(s: State) {
    forall v: nat :: Doomed(s.servers, s.tasks, s.stack, v) ==> Claimed(s.clients, s.attempts, s.servers, s.stack, v)
  }

  ghost predicate Waits(s: State) {
    && (forall v: nat :: StackDoomed(s.stack, v) ==> Waiting(s.attempts, s.servers, v))
    && (forall v: nat :: MarkTask(v) in s.tasks ==> MarkedFirst(s.attempts, s.servers, s.tasks, v))
  }

  ghost predicate Marks(s: State) {
    && (forall v: nat :: MarkTask(v) in s.tasks ==> !Lingering(s.rooms, v))
    && (forall v: nat :: CloseMarkTask(v) in s.tasks ==>
          !Lingering(s.rooms, v) && v < |s.servers| && s.servers[v].closing)
    && (forall v :: 0 <= v < |s.servers| && s.servers[v].closing ==>
          && s.servers[v].torn
          && s.servers[v].client < |s.clients| && s.clients[s.servers[v].client].space in s.closed)
  }

  /** Another socket of the attempt's client is still around. */
  ghost predicate Other(attempts: seq<Attempt>, servers: seq<Server>, rooms: Rooms.State, a: nat, v: nat)
    requires a < |attempts|
  {
    && v < |servers| && servers[v].client == attempts[a].client && attempts[a].server != Some(v)
    && Lingering(rooms, v)
  }

  ghost predicate PairFifo(s: State, a: nat)
    requires a < |s.attempts|
  {
    && (s.attempts[a].asked || !s.attempts[a].nested ==> Tail(s.attempts[a].client) !in s.stack)
    && (!s.attempts[a].nested ==>
          forall v: nat :: Other(s.attempts, s.servers, s.rooms, a, v) ==>
            !s.attempts[a].asked && NeverAfter(s.tasks, TeardownTask(v), PairTask(a)))
  }

  ghost predicate DoneFifo(s: State, a: nat)
    requires a < |s.attempts|
  {
    && (s.attempts[a].asked ==>
          forall v: nat :: Other(s.attempts, s.servers, s.rooms, a, v) ==>
            && (InClean(s.stack, v) || TeardownTask(v) in s.tasks)
            && NeverAfter(s.tasks, TeardownTask(v), DoneTask(a, true))
            && NeverAfter(s.tasks, TeardownTask(v), DoneTask(a, false)))
    && (AfterConnection(a) in s.stack ==> forall v: nat :: !Other(s.attempts, s.servers, s.rooms, a, v))
  }

  ghost predicate Fifo(s: State) {
    forall a :: 0 <= a < |s.attempts| && s.attempts[a].phase == Pending ==> PairFifo(s, a) && DoneFifo(s, a)
  }

  ghost predicate Handover(s: State) {
    && Homes(s) && Provisional(s) && RosterLive(s.rooms) && Claims(s) && Waits(s) && Marks(s) && Fifo(s)
  }

  /**
    A server socket is disconnected by its own handle only while it is in the roster of
    its namespace, or when it has been torn already.
   */
  ghost predicate Mannerly(s: State, e: Event) {
    && (e.DisconnectServer? && e.server < |s.servers| ==> s.servers[e.server].torn || e.server in s.rooms.roster)
    && (e.DisconnectGroup? && e.server < |s.servers| ==>
          !Owns(s, s.servers[e.server].client, e.server) || e.server in s.rooms.roster)
  }

  // Steps that touch none of this.

  predicate Relevant(f: Frame) {
    f.AfterConnection? || f.Tail? || IsClean(f) || f.Ended?
  }

  ghost predicate SameRooms(r: Rooms.State, q: Rooms.State) {
    q.cleaned == r.cleaned && q.draining == r.draining && q.roster == r.roster
  }

  ghost predicate SameServers(servers: seq<Server>, next: seq<Server>) {
    && |next| == |servers|
    && forall v :: 0 <= v < |servers| ==>
         next[v].client == servers[v].client && next[v].torn == servers[v].torn && next[v].closing == servers[v].closing
  }

  ghost predicate Untouched(s: State, q: State) {
    && q.clients == s.clients && q.attempts == s.attempts && q.tasks == s.tasks && q.closed == s.closed
    && SameServers(s.servers, q.servers) && SameRooms(s.rooms, q.rooms)
    && (forall f: Frame :: Relevant(f) ==> (f in q.stack <==> f in s.stack))
    && (forall v: nat :: GroupOf(q.stack, v) <==> GroupOf(s.stack, v))
  }

  lemma UntouchedHomes(s: State, q: State)
    requires Untouched(s, q) && Homes(s)
    ensures Homes(q)
  {
    forall v | 0 <= v < |q.servers| && v !in q.rooms.cleaned
      ensures HomeOf(q.clients, q.attempts, q.servers, q.stack, v)
    {
      assert HomeOf(s.clients, s.attempts, s.servers, s.stack, v);
    }
  }

  lemma SameFrames(s: State, q: State)
    requires Untouched(s, q)
    ensures forall v: nat :: GroupOf(q.stack, v) <==> GroupOf(s.stack, v)
    ensures forall v: nat :: InClean(q.stack, v) <==> InClean(s.stack, v)
    ensures forall v: nat :: StackDoomed(q.stack, v) <==> StackDoomed(s.stack, v)
  {}

  lemma UntouchedProvisional(s: State, q: State)
    requires Untouched(s, q) && Provisional(s)
    ensures Provisional(q)
  {
    SameFrames(s, q);
    forall a | 0 <= a < |q.attempts| && q.attempts[a].server.Some? && NotYetDone(q.attempts, q.tasks, a)
      ensures Unadmitted(q.clients, q.attempts, q.servers, q.rooms, q.stack, a)
    {
      assert Unadmitted(s.clients, s.attempts, s.servers, s.rooms, s.stack, a);
    }
  }

  lemma UntouchedClaims(s: State, q: State)
    requires Untouched(s, q) && Claims(s)
    ensures Claims(q)
  {
    SameFrames(s, q);
    hide StackDoomed;
    forall v: nat | Doomed(q.servers, q.tasks, q.stack, v) ensures Claimed(q.clients, q.attempts, q.servers, q.stack, v) {
      assert Claimed(s.clients, s.attempts, s.servers, s.stack, v);
    }
  }

  lemma UntouchedWaits(s: State, q: State)
    requires Untouched(s, q) && Waits(s)
    ensures Waits(q)
  {
    SameFrames(s, q);
    hide StackDoomed, NeverAfter;
    forall v: nat | StackDoomed(q.stack, v) ensures Waiting(q.attempts, q.servers, v) {
      assert Waiting(s.attempts, s.servers, v);
    }
    forall v: nat | MarkTask(v) in q.tasks ensures MarkedFirst(q.attempts, q.servers, q.tasks, v) {
      assert MarkedFirst(s.attempts, s.servers, s.tasks, v);
    }
  }

  lemma UntouchedFifo(s: State, q: State)
    requires Untouched(s, q) && Fifo(s)
    ensures Fifo(q)
  {
    SameFrames(s, q);
    hide NeverAfter, InClean;
    forall a | 0 <= a < |q.attempts| && q.attempts[a].phase == Pending ensures PairFifo(q, a) && DoneFifo(q, a) {
      assert PairFifo(s, a) && DoneFifo(s, a);
      forall v: nat ensures Other(q.attempts, q.servers, q.rooms, a, v) <==> Other(s.attempts, s.servers, s.rooms, a, v) {}
    }
  }

  lemma UntouchedHandover(s: State, q: State)
    requires Untouched(s, q) && Handover(s)
    ensures Handover(q)
  {
    UntouchedHomes(s, q);
    UntouchedProvisional(s, q);
    UntouchedClaims(s, q);
    UntouchedWaits(s, q);
    UntouchedFifo(s, q);
    hide Homes, Provisional, Claims, Waits, Fifo;
  }
}
