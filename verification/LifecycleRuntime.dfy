/**
  The runtime itself: the fields that clients, attempts, server sockets, Managers and
  namespaces change in place, and the methods that change them. Every method is proved
  to do what the function of the same name in `Lifecycle` says.
 */
module LifecycleRuntime {
  import opened Common
  import Rooms
  import opened Lifecycle

  class Runtime {
    var clients: seq<Client>
    var attempts: seq<Attempt>
    var servers: seq<Server>
    var pendingClients: set<nat>
    var connectedClients: set<nat>
    var closed: set<nat>
    var rooms: Rooms.State
    var tasks: seq<Task>
    var stack: seq<Frame>
    var packets: seq<Packet>
    var log: seq<Observation>

    ghost function Now(): State
      reads this
    {
      State(clients, attempts, servers, pendingClients, connectedClients, closed, rooms, tasks, stack, packets, log)
    }

    constructor (idle: seq<Client>)
      ensures Now() == State(idle, [], [], {}, {}, {}, Rooms.EMPTY, [], [], [], [])
    {
      clients, attempts, servers, pendingClients, connectedClients, closed := idle, [], [], {}, {}, {};
      rooms, tasks, stack, packets, log := Rooms.EMPTY, [], [], [], [];
    }

    method Defer(t: Task)
      modifies this`tasks
      ensures tasks == old(tasks) + [t]
    {
      tasks := tasks + [t];
    }

    method Call(f: Frame)
      modifies this`stack
      ensures stack == [f] + old(stack)
    {
      stack := [f] + stack;
    }

    method Report(o: Observation)
      modifies this`log
      ensures log == old(log) + [o]
    {
      log := log + [o];
    }

    predicate AttemptPending(a: nat)
      reads this
      ensures AttemptPending(a) == IsPending(Now(), a)
    {
      a < |attempts| && attempts[a].client < |clients|
      && clients[attempts[a].client].attempt == Some(a) && attempts[a].phase == Pending
    }

    predicate AttemptConnected(a: nat)
      reads this
      ensures AttemptConnected(a) == IsConnected(Now(), a)
    {
      a < |attempts| && attempts[a].client < |clients|
      && var c := clients[attempts[a].client];
         c.attempt == Some(a) && attempts[a].phase == Established && c.connected && c.server == attempts[a].server
    }

    predicate RejectsAll(a: nat)
      reads this
      ensures RejectsAll(a) == SpaceClosed(Now(), a)
    {
      a < |attempts| && attempts[a].client < |clients| && clients[attempts[a].client].space in closed
    }

    predicate OwnsConnection(c: nat, v: nat)
      reads this
      ensures OwnsConnection(c, v) == Owns(Now(), c, v)
    {
      c < |clients| && v < |servers| && servers[v].active
      && var client := clients[c];
         || (client.connected && client.server == Some(v))
         || (client.attempt.Some? && client.attempt.value < |attempts|
             && attempts[client.attempt.value].phase == Pending && attempts[client.attempt.value].server == Some(v))
    }

    function Manager(v: nat): nat
      reads this
      ensures Manager(v) == ManagerOf(Now(), v)
    {
      if v < |servers| && servers[v].client < |clients| then clients[servers[v].client].manager else 0
    }

    method Connect(c: nat)
      requires c < |clients|
      modifies this`attempts, this`clients, this`pendingClients, this`tasks
      ensures Now() == ConnectCall(old(Now()), c)
    {
      if clients[c].connected { return; }
      if clients[c].attempt.Some? && AttemptPending(clients[c].attempt.value) { return; }
      var a := |attempts|;
      attempts := attempts + [Attempt(c, Pending, None, false, false, false, Tail(c) in stack, false)];
      clients := clients[c := clients[c].(attempt := Some(a))];
      pendingClients := pendingClients + {c};
      Defer(PairTask(a));
    }

    method CleanupConnectionAttempt(v: nat)
      requires v < |servers|
      modifies this`servers, this`rooms
      ensures Now() == Lifecycle.Discard(old(Now()), v)
    {
      servers := servers[v := servers[v].(active := false)];
      rooms := Rooms.Cleanup(rooms, v);
    }

    method Abandon(a: nat, phase: Phase)
      requires AttemptPending(a)
      modifies this`attempts, this`clients, this`pendingClients, this`servers, this`rooms
      ensures Now() == Lifecycle.Abandon(old(Now()), a, phase)
    {
      var c := attempts[a].client;
      var v := attempts[a].server;
      attempts := attempts[a := attempts[a].(phase := phase)];
      clients := clients[c := clients[c].(attempt := None)];
      pendingClients := pendingClients - {c};
      if v.Some? && v.value < |servers| { CleanupConnectionAttempt(v.value); }
    }

    method Cancel(c: nat)
      requires c < |clients|
      modifies this`attempts, this`clients, this`pendingClients, this`servers, this`rooms
      ensures Now() == Lifecycle.Cancel(old(Now()), c)
    {
      if clients[c].attempt.Some? && AttemptPending(clients[c].attempt.value) {
        Abandon(clients[c].attempt.value, Cancelled);
      }
    }

    method Reject(a: nat, encodes: bool)
      modifies this`attempts, this`clients, this`pendingClients, this`servers, this`rooms, this`tasks
      ensures Now() == Lifecycle.Reject(old(Now()), a, encodes)
    {
      if AttemptPending(a) {
        Abandon(a, Rejected(encodes));
        if encodes { Defer(ErrorTask(a)); }
      }
    }

    method MarkDisconnected(c: nat)
      requires c < |clients|
      modifies this`attempts, this`clients, this`connectedClients
      ensures Now() == Lifecycle.MarkDisconnected(old(Now()), c)
    {
      var attempt := clients[c].attempt;
      if attempt.Some? && attempt.value < |attempts| {
        attempts := attempts[attempt.value := attempts[attempt.value].(phase := Cancelled)];
      }
      clients := clients[c := clients[c].(connected := false, id := None, attempt := None)];
      connectedClients := connectedClients - {c};
    }

    method Disconnect(c: nat)
      requires c < |clients|
      modifies this
      ensures Now() == DisconnectCall(old(Now()), c)
    {
      if !clients[c].connected {
        Cancel(c);
        return;
      }
      MarkDisconnected(c);
      Call(Tail(c));
    }

    method Teardown(v: nat, closing: bool)
      requires v < |servers|
      modifies this`servers, this`tasks
      ensures Now() == Lifecycle.Teardown(old(Now()), v, closing)
    {
      if servers[v].torn { return; }
      servers := servers[v := servers[v].(torn := true, closing := closing)];
      Defer(TeardownTask(v));
    }

    method DisconnectServer(v: nat)
      requires v < |servers|
      modifies this`servers, this`log, this`stack
      ensures Now() == ServerDisconnectCall(old(Now()), v)
    {
      if servers[v].torn { return; }
      servers := servers[v := servers[v].(torn := true, active := false)];
      Report(ServerDisconnecting(v, Rooms.View(rooms, v)));
      Call(Clean(v, true));
    }

    method DisconnectGroup(v: nat, order: seq<nat>)
      requires v < |servers|
      modifies this`stack
      ensures Now() == GroupCall(old(Now()), v, order)
    {
      if OwnsConnection(servers[v].client, v) { Call(Group(order, 0, v)); }
    }

    /** The second loop of `Manager.disconnect`. */
    method CancelOthers(manager: nat, v: nat)
      modifies this
      ensures Now() == Lifecycle.CancelOthers(old(Now()), 0, manager, v)
    {
      var i := 0;
      while i < |clients|
        invariant i <= |clients| == |old(clients)|
        invariant Lifecycle.CancelOthers(Now(), i, manager, v) == Lifecycle.CancelOthers(old(Now()), 0, manager, v)
      {
        if i in pendingClients && clients[i].manager == manager && !OwnsConnection(i, v) { Cancel(i); }
        i := i + 1;
      }
    }

    /** One step of the loop over the connected members, or what follows it. */
    method ContinueGroup(order: seq<nat>, next: nat, v: nat)
      requires v < |servers|
      modifies this
      ensures Now() == GroupNext(old(Now()), order, next, v)
    {
      if next < |order| {
        Call(Group(order, next + 1, v));
        var c := order[next];
        if c < |clients| && clients[c].connected && clients[c].server.Some? && clients[c].server.value < |servers| {
          DisconnectServer(clients[c].server.value);
        }
      } else {
        CancelOthers(Manager(v), v);
        DisconnectServer(v);
      }
    }

    /** `Namespace.close` over the sockets admitted at that moment. */
    method Close(space: nat, order: seq<nat>)
      modifies this`closed, this`servers, this`tasks
      ensures Now() == CloseCall(old(Now()), space, order)
    {
      closed := closed + {space};
      ghost var begun := Now();
      var i := 0;
      while i < |order|
        invariant i <= |order|
        invariant TeardownAll(Now(), order[i..]) == TeardownAll(begun, order)
      {
        assert order[i..][0] == order[i] && order[i..][1..] == order[i + 1..];
        if order[i] < |servers| { Teardown(order[i], true); }
        i := i + 1;
      }
    }

    method Authenticate(a: nat)
      requires a < |attempts|
      modifies this
      ensures Now() == AuthenticateCall(old(Now()), a)
    {
      if !attempts[a].asked || !AttemptPending(a) { return; }
      if RejectsAll(a) {
        Reject(a, true);
        return;
      }
      var v := |servers|;
      servers := servers + [Server(attempts[a].client, false, true, false, false)];
      if attempts[a].server.Some? {
        CleanupConnectionAttempt(v);
      } else {
        attempts := attempts[a := attempts[a].(server := Some(v))];
      }
    }

    method Complete(a: nat, failed: bool, encodes: bool)
      requires a < |attempts|
      modifies this`attempts, this`tasks
      ensures Now() == CompleteCall(old(Now()), a, failed, encodes)
    {
      if attempts[a].server == None || attempts[a].completed { return; }
      attempts := attempts[a := attempts[a].(completed := true, mute := failed && !encodes)];
      Defer(DoneTask(a, failed));
    }

    method Admit(a: nat, v: nat)
      requires v < |servers|
      modifies this`servers, this`rooms, this`log, this`stack
      ensures Now() == Lifecycle.Admit(old(Now()), a, v)
    {
      rooms := Rooms.Join(Rooms.Register(rooms, v), v, v);
      servers := servers[v := servers[v].(connected := true)];
      Report(ServerConnection(a));
      Call(AfterConnection(a));
    }

    method ContinuePair(a: nat)
      modifies this
      ensures Now() == RunPair(old(Now()), a)
    {
      if !AttemptPending(a) { return; }
      if RejectsAll(a) {
        Reject(a, true);
        return;
      }
      attempts := attempts[a := attempts[a].(asked := true)];
    }

    method FinishMiddleware(a: nat, failed: bool)
      modifies this
      ensures Now() == RunDone(old(Now()), a, failed)
    {
      if a >= |attempts| { return; }
      if failed {
        Reject(a, !attempts[a].mute);
        return;
      }
      var v := attempts[a].server;
      if !AttemptPending(a) {
        if attempts[a].phase != Established && v.Some? && v.value < |servers| { CleanupConnectionAttempt(v.value); }
        return;
      }
      if RejectsAll(a) {
        Reject(a, true);
        return;
      }
      if v.Some? && v.value < |servers| { Admit(a, v.value); }
    }

    method CompleteConnectionAttempt(a: nat)
      modifies this
      ensures Now() == CompleteAttempt(old(Now()), a)
    {
      if a >= |attempts| { return; }
      var v := attempts[a].server;
      if !AttemptPending(a) {
        if attempts[a].phase != Established && v.Some? && v.value < |servers| { CleanupConnectionAttempt(v.value); }
        return;
      }
      var c := attempts[a].client;
      attempts := attempts[a := attempts[a].(phase := Established, connected := true)];
      clients := clients[c := clients[c].(connected := true, id := v, server := v)];
      pendingClients := pendingClients - {c};
      connectedClients := connectedClients + {c};
      Call(Flushing(a));
    }

    method BeginTeardown(v: nat)
      requires v < |servers|
      modifies this`servers, this`log, this`stack
      ensures Now() == RunTeardown(old(Now()), v)
    {
      servers := servers[v := servers[v].(active := false)];
      Report(ServerDisconnecting(v, Rooms.View(rooms, v)));
      Call(Clean(v, false));
    }

    method DisconnectPeer(v: nat)
      modifies this
      ensures Now() == RunMark(old(Now()), v)
    {
      if v < |servers| && servers[v].client < |clients| && clients[servers[v].client].connected {
        MarkDisconnected(servers[v].client);
      }
    }

    /** The next microtask. */
    method Microtask()
      requires stack == [] && tasks != []
      modifies this
      ensures Now() == Lifecycle.Perform(old(Now()), Lifecycle.Microtask)
    {
      var t := tasks[0];
      tasks := tasks[1..];
      match t {
        case PairTask(a) => ContinuePair(a);
        case DoneTask(a, failed) => FinishMiddleware(a, failed);
        case ErrorTask(a) => Report(ClientError(a));
        case TeardownTask(v) => if v < |servers| { BeginTeardown(v); }
        case MarkTask(v) => DisconnectPeer(v);
        case CloseMarkTask(v) => DisconnectPeer(v);
      }
    }

    method Send(v: nat, broadcast: bool, wasConnected: bool, encodes: bool)
      modifies this`packets
      ensures Now() == SendingResume(old(Now()), v, broadcast, wasConnected, encodes)
    {
      if v >= |servers| || servers[v].client >= |clients| { return; }
      if !broadcast && !(servers[v].active && encodes) { return; }
      var c := servers[v].client;
      packets := packets + [Packet(v, wasConnected && !clients[c].connected, Current(clients, attempts, c))];
    }

    method ContinueBroadcast(order: seq<nat>)
      modifies this`stack
      ensures Now() == BroadcastingResume(old(Now()), order)
    {
      if order == [] { return; }
      Call(Broadcasting(order[1..]));
      if order[0] < |servers| && servers[order[0]].client < |clients| {
        Call(Sending(order[0], true, clients[servers[order[0]].client].connected));
      }
    }

    method EndTeardown(v: nat, sync: bool)
      modifies this`tasks
      ensures Now() == EndedResume(old(Now()), v, sync)
    {
      if sync {
        Defer(MarkTask(v));
      } else if v < |servers| && servers[v].closing {
        Defer(CloseMarkTask(v));
      }
    }

    /** The first half of `cleanupMembership`. */
    method BeginCleanup(v: nat, sync: bool)
      requires v < |servers|
      modifies this`servers, this`rooms, this`stack
      ensures Now() == CleanResume(old(Now()), v, sync)
    {
      servers := servers[v := servers[v].(connected := false)];
      rooms := Rooms.CleanBegin(rooms, v);
      Call(CleanEnd(v, sync));
    }

    method EndCleanup(v: nat, sync: bool)
      modifies this`rooms, this`log, this`stack
      ensures Now() == CleanEndResume(old(Now()), v, sync)
    {
      rooms := Rooms.CleanEnd(rooms, v);
      Report(ServerDisconnect(v, Rooms.View(rooms, v)));
      Call(Ended(v, sync));
    }

    method FinishDisconnect(c: nat)
      modifies this`servers, this`tasks
      ensures Now() == TailResume(old(Now()), c)
    {
      if c < |clients| && clients[c].server.Some? && clients[c].server.value < |servers| {
        Teardown(clients[c].server.value, false);
      }
    }

    method FinishFlush(a: nat, encodes: bool)
      modifies this`log
      ensures Now() == Lifecycle.Resume(old(Now()), Flushing(a), encodes)
    {
      if AttemptConnected(a) && encodes { Report(ClientConnect(a)); }
    }

    /** The innermost callback returns and its caller goes on. */
    method Return(encodes: bool)
      requires stack != []
      modifies this
      ensures Now() == Lifecycle.Perform(old(Now()), Lifecycle.Return(encodes))
    {
      hide TailResume, CleanResume, CleanEndResume, EndedResume, SendingResume, BroadcastingResume, GroupNext, CompleteAttempt;
      var f := stack[0];
      stack := stack[1..];
      match f {
        case AfterConnection(a) => CompleteConnectionAttempt(a);
        case Flushing(a) => FinishFlush(a, encodes);
        case Tail(c) => FinishDisconnect(c);
        case Clean(v, sync) => if v < |servers| { BeginCleanup(v, sync); }
        case CleanEnd(v, sync) => EndCleanup(v, sync);
        case Ended(v, sync) => EndTeardown(v, sync);
        case Group(order, next, v) => if v < |servers| { ContinueGroup(order, next, v); }
        case Sending(v, broadcast, wasConnected) => Send(v, broadcast, wasConnected, encodes);
        case Broadcasting(order) => ContinueBroadcast(order);
      }
    }
  }
}
