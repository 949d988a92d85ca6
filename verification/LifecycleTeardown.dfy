/**
  Teardown of server sockets: `disconnecting`, the cleanup and `disconnect` each happen at
  most once and in that order, however the teardown was begun: by a microtask, by a call,
  by a group operation or by closing.
 */
module LifecycleTeardown {
  import opened Common
  import Rooms
  import opened Lifecycle
  import opened LifecycleStanding
  import opened LifecycleOutcomes

  ghost predicate Leaving(log: seq<Observation>, v: nat) {
    exists rooms :: ServerDisconnecting(v, rooms) in log
  }

  ghost predicate Left(log: seq<Observation>, v: nat) {
    exists rooms :: ServerDisconnect(v, rooms) in log
  }

  predicate IsClean(f: Frame) {
    f.Clean? || f.CleanEnd?
  }

  predicate InClean(stack: seq<Frame>, v: nat) {
    Clean(v, true) in stack || Clean(v, false) in stack || CleanEnd(v, true) in stack || CleanEnd(v, false) in stack
  }

  predicate InEnded(stack: seq<Frame>, v: nat) {
    Ended(v, true) in stack || Ended(v, false) in stack
  }

  ghost predicate CleanUnique(stack: seq<Frame>) {
    forall i, j :: 0 <= i < j < |stack| && IsClean(stack[i]) && IsClean(stack[j]) ==> stack[i].server != stack[j].server
  }

  ghost predicate LeavingLog(servers: seq<Server>, tasks: seq<Task>, log: seq<Observation>) {
    forall v: nat :: Leaving(log, v) ==> v < |servers| && servers[v].torn && TeardownTask(v) !in tasks
  }

  ghost predicate CleanLog(stack: seq<Frame>, log: seq<Observation>) {
    && (forall v: nat :: InClean(stack, v) ==> Leaving(log, v) && !Left(log, v))
    && (forall v: nat :: InEnded(stack, v) ==> Left(log, v))
    && (forall v: nat :: Left(log, v) ==> Leaving(log, v))
  }

  /** A torn socket whose `disconnect` is not out yet still has its work queued or on the stack. */
  ghost predicate Owed(servers: seq<Server>, tasks: seq<Task>, stack: seq<Frame>, log: seq<Observation>) {
    forall v :: 0 <= v < |servers| && servers[v].torn ==>
      TeardownTask(v) in tasks || InClean(stack, v) || Left(log, v)
  }

  /** No listener hears `disconnect` without having heard `disconnecting`. */
  ghost predicate LeavingFirst(log: seq<Observation>) {
    forall j :: 0 <= j < |log| && log[j].ServerDisconnect? ==> Leaving(log[..j], log[j].server)
  }

  ghost predicate Protocol(s: State) {
    && LeavingLog(s.servers, s.tasks, s.log)
    && CleanLog(s.stack, s.log)
    && CleanUnique(s.stack)
    && Owed(s.servers, s.tasks, s.stack, s.log)
    && LeavingFirst(s.log)
  }

  predicate AboutServer(o: Observation) {
    o.ServerDisconnecting? || o.ServerDisconnect?
  }

  /** No teardown moves: no report about a server socket, no task or frame of a teardown. */
  ghost predicate StillServers(servers: seq<Server>, next: seq<Server>) {
    && |servers| <= |next|
    && (forall v :: 0 <= v < |servers| ==> next[v].torn == servers[v].torn)
    && (forall v :: |servers| <= v < |next| ==> !next[v].torn)
  }

  ghost predicate StillTasks(tasks: seq<Task>, next: seq<Task>) {
    forall t: Task :: t.TeardownTask? ==> (t in tasks <==> t in next)
  }

  ghost predicate StillStack(stack: seq<Frame>, next: seq<Frame>) {
    && (forall f: Frame :: IsClean(f) ==> (f in stack <==> f in next))
    && (forall f: Frame :: f.Ended? ==> (f in next ==> f in stack))
    && CleanUnique(next)
  }

  ghost predicate StillLog(log: seq<Observation>, next: seq<Observation>) {
    next == log || exists o :: next == log + [o] && !AboutServer(o)
  }

  ghost predicate Still(s: State, q: State) {
    && StillServers(s.servers, q.servers) && StillTasks(s.tasks, q.tasks)
    && StillStack(s.stack, q.stack) && StillLog(s.log, q.log)
  }

  lemma LogGrows(log: seq<Observation>, o: Observation)
    ensures forall v: nat :: Leaving(log + [o], v) <==> Leaving(log, v) || (o.ServerDisconnecting? && o.server == v)
    ensures forall v: nat :: Left(log + [o], v) <==> Left(log, v) || (o.ServerDisconnect? && o.server == v)
  {
    var next := log + [o];
    forall p ensures p in next <==> p in log || p == o {}
    forall v: nat | Leaving(log, v) ensures Leaving(next, v) {
      var rooms :| ServerDisconnecting(v, rooms) in log;
      assert ServerDisconnecting(v, rooms) in next;
    }
    forall v: nat | Left(log, v) ensures Left(next, v) {
      var rooms :| ServerDisconnect(v, rooms) in log;
      assert ServerDisconnect(v, rooms) in next;
    }
    if o.ServerDisconnecting? { assert ServerDisconnecting(o.server, o.rooms) in next; }
    if o.ServerDisconnect? { assert ServerDisconnect(o.server, o.rooms) in next; }
  }

  lemma StillLogMembers(log: seq<Observation>, next: seq<Observation>)
    requires StillLog(log, next)
    ensures forall v: nat :: Leaving(log, v) <==> Leaving(next, v)
    ensures forall v: nat :: Left(log, v) <==> Left(next, v)
    ensures LeavingFirst(log) ==> LeavingFirst(next)
  {
    if next != log {
      var o :| next == log + [o] && !AboutServer(o);
      LogGrows(log, o);
      if LeavingFirst(log) { AppendLeavingFirst(log, o); }
    }
  }

  lemma AppendLeavingFirst(log: seq<Observation>, o: Observation)
    requires LeavingFirst(log)
    requires o.ServerDisconnect? ==> Leaving(log, o.server)
    ensures LeavingFirst(log + [o])
  {
    var next := log + [o];
    forall j | 0 <= j < |next| && next[j].ServerDisconnect?
      ensures Leaving(next[..j], next[j].server)
    {
      if j < |log| { assert next[..j] == log[..j]; } else { assert next[..j] == log; }
    }
  }

  lemma StillKeeps(s: State, q: State)
    requires Protocol(s) && Still(s, q)
    ensures Protocol(q)
  {
    hide LeavingFirst, Leaving, Left;
    StillLogMembers(s.log, q.log);
  }

  lemma StillTrans(s: State, q: State, r: State)
    requires Still(s, q) && Still(q, r) && (q.log == s.log || r.log == q.log)
    ensures Still(s, r)
  {}

  lemma StillSelf(s: State)
    requires CleanUnique(s.stack)
    ensures Still(s, s)
  {}

  lemma PushStill(s: State, f: Frame)
    requires CleanUnique(s.stack) && !IsClean(f) && !f.Ended?
    ensures Still(s, Push(s, f)) && CleanUnique(Push(s, f).stack)
  {}

  lemma PopFrameStill(s: State)
    requires CleanUnique(s.stack) && s.stack != [] && !IsClean(s.stack[0])
    ensures Still(s, s.(stack := s.stack[1..])) && CleanUnique(s.stack[1..])
  {
    PopMembers(s.stack);
  }

  lemma PopTaskStill(s: State)
    requires CleanUnique(s.stack) && s.tasks != [] && !s.tasks[0].TeardownTask?
    ensures Still(s, s.(tasks := s.tasks[1..]))
  {
    PopMembers(s.tasks);
  }

  // The steps of a teardown.

  lemma TeardownProtocol(s: State, v: nat, closing: bool)
    requires Protocol(s) && v < |s.servers|
    ensures Protocol(Teardown(s, v, closing))
  {
    hide LeavingFirst, Leaving, Left, CleanUnique;
    if !s.servers[v].torn {
      var q := Teardown(s, v, closing);
      assert q.tasks == s.tasks + [TeardownTask(v)];
      forall t ensures t in q.tasks <==> t in s.tasks || t == TeardownTask(v) {}
    }
  }

  lemma {:induction false} TeardownAllProtocol(s: State, order: seq<nat>)
    requires Protocol(s)
    ensures Protocol(TeardownAll(s, order))
    decreases |order|
  {
    hide Protocol, Teardown;
    if order != [] {
      var q := if order[0] < |s.servers| then Teardown(s, order[0], true) else s;
      if order[0] < |s.servers| { TeardownProtocol(s, order[0], true); }
      TeardownAllProtocol(q, order[1..]);
    }
  }

  lemma PushClean(stack: seq<Frame>, f: Frame)
    requires CleanUnique(stack) && IsClean(f) && !InClean(stack, f.server)
    ensures CleanUnique([f] + stack)
  {
    var next := [f] + stack;
    forall i, j | 0 <= i < j < |next| && IsClean(next[i]) && IsClean(next[j]) ensures next[i].server != next[j].server {
      if i == 0 { assert next[j] in stack && (next[j].Clean? || next[j].CleanEnd?); }
    }
  }

  /** The `disconnecting` report of a torn socket whose report was still owed. */
  lemma BeginProtocol(s: State, q: State, v: nat, sync: bool)
    requires Protocol(s) && v < |s.servers| && |q.servers| == |s.servers|
    requires q.servers[v].torn && forall w :: 0 <= w < |s.servers| && w != v ==> q.servers[w].torn == s.servers[w].torn
    requires !Leaving(s.log, v)
    requires TeardownTask(v) !in q.tasks
    requires forall t: Task :: t.TeardownTask? && t != TeardownTask(v) ==> (t in s.tasks <==> t in q.tasks)
    requires q.stack == [Clean(v, sync)] + s.stack
    requires exists rooms :: q.log == s.log + [ServerDisconnecting(v, rooms)]
    ensures Protocol(q)
  {
    hide LeavingFirst, Leaving, Left, CleanUnique;
    var rooms :| q.log == s.log + [ServerDisconnecting(v, rooms)];
    LogGrows(s.log, ServerDisconnecting(v, rooms));
    AppendLeavingFirst(s.log, ServerDisconnecting(v, rooms));
    assert !InClean(s.stack, v);
    PushClean(s.stack, Clean(v, sync));
    forall f ensures f in q.stack <==> f in s.stack || f == Clean(v, sync) {}
  }

  lemma ServerDisconnectProtocol(s: State, v: nat)
    requires Protocol(s) && v < |s.servers| && TasksMatch(s.attempts, s.servers, s.tasks)
    ensures Protocol(ServerDisconnectCall(s, v))
  {
    if !s.servers[v].torn {
      var q := ServerDisconnectCall(s, v);
      assert q.log == s.log + [ServerDisconnecting(v, Rooms.View(s.rooms, v))];
      BeginProtocol(s, q, v, true);
    }
  }

  lemma RunTeardownProtocol(s: State, v: nat)
    requires Protocol(s) && v < |s.servers| && TasksMatch(s.attempts, s.servers, s.tasks) && TasksDistinct(s.tasks)
    requires s.tasks != [] && s.tasks[0] == TeardownTask(v)
    ensures Protocol(RunTeardown(s.(tasks := s.tasks[1..]), v))
  {
    var q := RunTeardown(s.(tasks := s.tasks[1..]), v);
    PopMembers(s.tasks);
    assert forall i :: 0 < i < |s.tasks| ==> s.tasks[i] != s.tasks[0];
    assert TeardownTask(v) in s.tasks;
    assert q.log == s.log + [ServerDisconnecting(v, Rooms.View(s.rooms, v))];
    BeginProtocol(s, q, v, false);
  }

  lemma SwapClean(stack: seq<Frame>, f: Frame)
    requires CleanUnique(stack) && stack != [] && IsClean(stack[0]) && IsClean(f) && f.server == stack[0].server
    ensures CleanUnique([f] + stack[1..])
    ensures !InClean(stack[1..], f.server)
  {
    forall i, j | 0 <= i < j < |stack| && IsClean(([f] + stack[1..])[i]) && IsClean(([f] + stack[1..])[j])
      ensures ([f] + stack[1..])[i].server != ([f] + stack[1..])[j].server
    {
      assert IsClean(stack[i]) && IsClean(stack[j]);
    }
    if InClean(stack[1..], f.server) {
      var j :| 0 < j < |stack| && IsClean(stack[j]) && stack[j].server == f.server;
      assert false;
    }
  }

  lemma CleanProtocol(s: State, v: nat, sync: bool)
    requires Protocol(s) && v < |s.servers| && s.stack != [] && s.stack[0] == Clean(v, sync)
    ensures Protocol(CleanResume(s.(stack := s.stack[1..]), v, sync))
  {
    hide LeavingFirst, Leaving, Left, CleanUnique;
    var rest := s.stack[1..];
    var q := CleanResume(s.(stack := rest), v, sync);
    SwapClean(s.stack, CleanEnd(v, sync));
    PopMembers(s.stack);
    forall f ensures f in q.stack <==> f in rest || f == CleanEnd(v, sync) {}
    assert InClean(s.stack, v);
    forall w: nat ensures InClean(q.stack, w) <==> InClean(s.stack, w) {}
  }

  lemma CleanEndProtocol(s: State, v: nat, sync: bool)
    requires Protocol(s) && s.stack != [] && s.stack[0] == CleanEnd(v, sync)
    ensures Protocol(CleanEndResume(s.(stack := s.stack[1..]), v, sync))
  {
    var o := ServerDisconnect(v, Rooms.View(Rooms.CleanEnd(s.rooms, v), v));
    EndsClean(s.stack, v, sync);
    LogGrows(s.log, o);
    AppendLeavingFirst(s.log, o);
    hide LeavingFirst, Leaving, Left, CleanUnique, InClean, InEnded, Rooms.CleanEnd;
  }

  lemma EndsClean(stack: seq<Frame>, v: nat, sync: bool)
    requires CleanUnique(stack) && stack != [] && stack[0] == CleanEnd(v, sync)
    ensures var next := [Ended(v, sync)] + stack[1..];
            && CleanUnique(next) && InClean(stack, v)
            && (forall w: nat :: InClean(next, w) <==> InClean(stack, w) && w != v)
            && (forall w: nat :: InEnded(next, w) <==> InEnded(stack, w) || w == v)
  {
    var rest := stack[1..];
    var next := [Ended(v, sync)] + rest;
    SwapClean(stack, CleanEnd(v, sync));
    PopMembers(stack);
    forall f ensures f in next <==> f in rest || f == Ended(v, sync) {}
    EndedUnique(rest, v, sync);
    hide CleanUnique;
    assert InClean(stack, v);
    forall w: nat ensures InClean(next, w) <==> InClean(stack, w) && w != v {}
  }

  lemma EndedUnique(rest: seq<Frame>, v: nat, sync: bool)
    ensures CleanUnique(rest) ==> CleanUnique([Ended(v, sync)] + rest)
    ensures CleanUnique([CleanEnd(v, sync)] + rest) ==> CleanUnique([Ended(v, sync)] + rest)
  {
    var f, g := [CleanEnd(v, sync)] + rest, [Ended(v, sync)] + rest;
    assert forall i :: 0 < i < |g| ==> g[i] == f[i];
  }

  // Everything else leaves teardowns alone.

  lemma CancelStill(s: State, c: nat)
    requires c < |s.clients| && CleanUnique(s.stack)
    ensures Still(s, Cancel(s, c)) && Cancel(s, c).log == s.log && Cancel(s, c).stack == s.stack
    ensures Cancel(s, c).tasks == s.tasks
  {}

  lemma {:induction false} CancelOthersStill(s: State, i: nat, manager: nat, v: nat)
    requires CleanUnique(s.stack)
    ensures var q := CancelOthers(s, i, manager, v);
            Still(s, q) && q.log == s.log && q.stack == s.stack && q.tasks == s.tasks
    decreases |s.clients| - i
  {
    hide Still, CleanUnique;
    StillSelf(s);
    if i < |s.clients| {
      var q := if i in s.pending && s.clients[i].manager == manager && !Owns(s, i, v) then Cancel(s, i) else s;
      CancelStill(s, i);
      CancelOthersStill(q, i + 1, manager, v);
      StillTrans(s, q, CancelOthers(q, i + 1, manager, v));
    }
  }

  lemma RejectStill(s: State, a: nat, encodes: bool)
    requires CleanUnique(s.stack)
    ensures Still(s, Reject(s, a, encodes))
  {}

  lemma DiscardStill(s: State, v: Option<nat>)
    requires CleanUnique(s.stack)
    ensures Still(s, DiscardOf(s, v))
  {}

  lemma DeliverStill(s: State, i: nat)
    requires i < |s.packets| && CleanUnique(s.stack)
    ensures Still(s, DeliverCall(s, i))
  {
    var p := s.packets[i];
    if p.via < |s.servers| && s.servers[p.via].client < |s.clients| && Guard(s, p) {
      var o := Arrival(s, p);
      assert DeliverCall(s, i).log == s.log + [o] && !AboutServer(o);
    }
  }

  lemma AuthenticateStill(s: State, a: nat)
    requires a < |s.attempts| && CleanUnique(s.stack)
    ensures Still(s, AuthenticateCall(s, a))
  {
    if SpaceClosed(s, a) { RejectStill(s, a, true); }
  }

  predicate LeavesTeardowns(e: Event) {
    !e.DisconnectServer? && !e.CloseSpace? && !e.Return? && !e.Microtask?
  }

  lemma CallStill(s: State, e: Event)
    requires Enabled(s, e) && LeavesTeardowns(e) && CleanUnique(s.stack)
    ensures Still(s, Perform(s, e))
  {
    hide DeliverCall, Cancel, AuthenticateCall, CleanUnique;
    match e {
      case Disconnect(c) =>
        if s.clients[c].connected {
          MarkStill(s, c);
          PushStill(MarkDisconnected(s, c), Tail(c));
          StillTrans(s, MarkDisconnected(s, c), Perform(s, e));
        } else { CancelStill(s, c); }
      case Deliver(i) => DeliverStill(s, i);
      case Authenticate(a) => AuthenticateStill(s, a);
      case DisconnectGroup(v, order) => PushStill(s, Group(order, 0, v)); StillSelf(s);
      case Emit(v) => PushStill(s, Sending(v, false, s.clients[s.servers[v].client].connected));
      case Broadcast(order) => PushStill(s, Broadcasting(order));
      case _ =>
    }
  }

  lemma MarkStill(s: State, c: nat)
    requires c < |s.clients| && CleanUnique(s.stack)
    ensures Still(s, MarkDisconnected(s, c)) && MarkDisconnected(s, c).stack == s.stack
    ensures MarkDisconnected(s, c).log == s.log
  {}

  lemma RunMarkStill(s: State, v: nat)
    requires CleanUnique(s.stack)
    ensures Still(s, RunMark(s, v))
  {
    StillSelf(s);
    if RunMark(s, v) != s { MarkStill(s, s.servers[v].client); }
  }

  lemma RunPairStill(s: State, a: nat)
    requires CleanUnique(s.stack)
    ensures Still(s, RunPair(s, a))
  {
    if SpaceClosed(s, a) { RejectStill(s, a, true); }
  }

  lemma AdmitStill(s: State, a: nat, v: nat)
    requires CleanUnique(s.stack) && v < |s.servers|
    ensures Still(s, Admit(s, a, v))
  {
    var o := ServerConnection(a);
    assert Admit(s, a, v).log == s.log + [o] && !AboutServer(o);
  }

  lemma RunDoneStill(s: State, a: nat, failed: bool)
    requires CleanUnique(s.stack)
    ensures Still(s, RunDone(s, a, failed))
  {
    hide Still, CleanUnique;
    StillSelf(s);
    RejectStill(s, a, true);
    RejectStill(s, a, false);
    if a < |s.attempts| {
      DiscardStill(s, s.attempts[a].server);
      if s.attempts[a].server.Some? && s.attempts[a].server.value < |s.servers| {
        AdmitStill(s, a, s.attempts[a].server.value);
      }
    }
  }

  lemma MicrotaskProtocol(s: State)
    requires Protocol(s) && Outcomes(s) && s.stack == [] && s.tasks != []
    ensures Protocol(RunTask(s.(tasks := s.tasks[1..]), s.tasks[0]))
  {
    hide Protocol, Outcomes, RunPair, RunDone, RunMark, RunTeardown, Still;
    var p := s.(tasks := s.tasks[1..]);
    var t := s.tasks[0];
    if t.TeardownTask? {
      OutcomeTasks(s);
      RunTeardownProtocol(s, t.server);
    } else {
      var q := RunTask(p, t);
      PopTaskStill(s);
      StillKeeps(s, p);
      match t {
        case PairTask(a) => RunPairStill(p, a);
        case DoneTask(a, failed) => RunDoneStill(p, a, failed);
        case ErrorTask(a) => ErrorStill(p, a);
        case MarkTask(v) => RunMarkStill(p, v);
        case CloseMarkTask(v) => RunMarkStill(p, v);
      }
      StillKeeps(p, q);
    }
  }

  lemma ErrorStill(s: State, a: nat)
    requires CleanUnique(s.stack)
    ensures Still(s, Observe(s, ClientError(a)))
    ensures Still(s, Observe(s, ClientConnect(a)))
  {
    assert !AboutServer(ClientError(a)) && !AboutServer(ClientConnect(a));
  }

  lemma OutcomeTasks(s: State)
    requires Outcomes(s)
    ensures TasksMatch(s.attempts, s.servers, s.tasks) && TasksDistinct(s.tasks)
    ensures TasksInRange(s.tasks, |s.attempts|, |s.servers|)
    ensures s.tasks != [] && s.tasks[0].TeardownTask? ==> s.tasks[0].server < |s.servers|
  {
    assert s.tasks != [] ==> s.tasks[0] in s.tasks;
  }

  lemma CompleteStill(s: State, a: nat)
    requires CleanUnique(s.stack)
    ensures Still(s, CompleteAttempt(s, a))
  {
    StillSelf(s);
    if a < |s.attempts| {
      DiscardStill(s, s.attempts[a].server);
      PushStill(s, Flushing(a));
    }
  }

  lemma EndedStill(s: State, v: nat, sync: bool)
    requires CleanUnique(s.stack)
    ensures Still(s, EndedResume(s, v, sync))
  {}

  lemma SendStill(s: State, f: Frame, encodes: bool)
    requires CleanUnique(s.stack) && (f.Sending? || f.Broadcasting?)
    ensures Still(s, Resume(s, f, encodes))
  {
    match f {
      case Sending(v, broadcast, was) =>
      case Broadcasting(order) =>
        if order == [] { StillSelf(s); }
        else {
          var q := Push(s, Broadcasting(order[1..]));
          PushStill(s, Broadcasting(order[1..]));
          if order[0] < |s.servers| && s.servers[order[0]].client < |s.clients| {
            var g := Sending(order[0], true, s.clients[s.servers[order[0]].client].connected);
            PushStill(q, g);
            StillTrans(s, q, Push(q, g));
          }
        }
    }
  }

  lemma GroupNextProtocol(s: State, order: seq<nat>, next: nat, v: nat)
    requires Protocol(s) && Outcomes(s) && v < |s.servers|
    ensures Protocol(GroupNext(s, order, next, v))
  {
    hide Protocol, Outcomes, CancelOthers, ServerDisconnectCall, Still, Quiet;
    UniqueOf(s);
    if next < |order| {
      var q := Push(s, Group(order, next + 1, v));
      PushStill(s, Group(order, next + 1, v));
      StillKeeps(s, q);
      OutcomeTasks(s);
      var c := order[next];
      if c < |s.clients| && s.clients[c].connected && s.clients[c].server.Some?
         && s.clients[c].server.value < |s.servers|
      {
        ServerDisconnectProtocol(q, s.clients[c].server.value);
      }
    } else {
      var q := CancelOthers(s, 0, ManagerOf(s, v), v);
      CancelOthersStill(s, 0, ManagerOf(s, v), v);
      StillKeeps(s, q);
      OutcomeBottom(s);
      CancelOthersQuiet(s, 0, ManagerOf(s, v), v);
      QuietKeeps(s, q);
      OutcomeTasks(q);
      ServerDisconnectProtocol(q, v);
    }
  }

  lemma OutcomeBottom(s: State)
    requires Outcomes(s)
    ensures BaseAtBottom(s.stack)
  {}

  lemma UniqueOf(s: State)
    requires Protocol(s)
    ensures CleanUnique(s.stack)
  {}

  /** Frames name existing clients and server sockets. */
  ghost predicate FramesInRange(stack: seq<Frame>, clients: nat, servers: nat) {
    forall f :: f in stack ==>
      match f
      case Tail(c) => c < clients
      case Clean(v, _) => v < servers
      case CleanEnd(v, _) => v < servers
      case Ended(v, _) => v < servers
      case Group(_, _, v) => v < servers
      case Sending(v, _, _) => v < servers
      case _ => true
  }

  lemma ReturnProtocol(s: State, encodes: bool)
    requires Protocol(s) && Outcomes(s) && s.stack != []
    requires FramesInRange(s.stack, |s.clients|, |s.servers|)
    ensures Protocol(Resume(s.(stack := s.stack[1..]), s.stack[0], encodes))
  {
    hide Protocol, Outcomes, CleanResume, CleanEndResume, TailResume, GroupNext, Still, CompleteAttempt, EndedResume;
    var p := s.(stack := s.stack[1..]);
    var f := s.stack[0];
    assert f in s.stack;
    UniqueOf(s);
    if f.Clean? {
      CleanProtocol(s, f.server, f.sync);
    } else if f.CleanEnd? {
      CleanEndProtocol(s, f.server, f.sync);
    } else {
      PopFrameStill(s);
      StillKeeps(s, p);
      ReturnStillProtocol(s, p, f, encodes);
    }
  }

  lemma ReturnStillProtocol(s: State, p: State, f: Frame, encodes: bool)
    requires Protocol(p) && Outcomes(s) && s.stack != [] && p == s.(stack := s.stack[1..]) && f == s.stack[0]
    requires FramesInRange([f], |s.clients|, |s.servers|) && !IsClean(f)
    ensures Protocol(Resume(p, f, encodes))
  {
    hide Protocol, Outcomes, Teardown, GroupNext, Still, CompleteAttempt, EndedResume, BroadcastingResume, SendingResume;
    assert f in [f];
    UniqueOf(p);
    StillSelf(p);
    match f {
      case AfterConnection(a) => CompleteStill(p, a); StillKeeps(p, Resume(p, f, encodes));
      case Flushing(a) => ErrorStill(p, a); StillKeeps(p, Resume(p, f, encodes));
      case Tail(c) =>
        if p.clients[c].server.Some? && p.clients[c].server.value < |p.servers| {
          TeardownProtocol(p, p.clients[c].server.value, false);
        }
      case Ended(v, sync) => EndedStill(p, v, sync); StillKeeps(p, Resume(p, f, encodes));
      case Group(order, next, v) => PopFrameKeeps(s); GroupNextProtocol(p, order, next, v);
      case Sending(v, broadcast, was) => SendStill(p, f, encodes); StillKeeps(p, Resume(p, f, encodes));
      case Broadcasting(order) => SendStill(p, f, encodes); StillKeeps(p, Resume(p, f, encodes));
    }
  }

  lemma PerformProtocol(s: State, e: Event)
    requires Protocol(s) && Outcomes(s) && Enabled(s, e)
    requires FramesInRange(s.stack, |s.clients|, |s.servers|)
    ensures Protocol(Perform(s, e))
  {
    hide Protocol, Outcomes, Still, Resume, RunTask, TeardownAll, ServerDisconnectCall;
    UniqueOf(s);
    if LeavesTeardowns(e) {
      CallStill(s, e);
      StillKeeps(s, Perform(s, e));
    } else {
      match e {
        case DisconnectServer(v) => OutcomeTasks(s); ServerDisconnectProtocol(s, v);
        case CloseSpace(space, order) =>
          var q := s.(closed := s.closed + {space});
          ClosedStill(s, space);
          StillKeeps(s, q);
          TeardownAllProtocol(q, order);
        case Return(encodes) => ReturnProtocol(s, encodes);
        case Microtask => MicrotaskProtocol(s);
      }
    }
  }

  lemma ClosedStill(s: State, space: nat)
    requires CleanUnique(s.stack)
    ensures Still(s, s.(closed := s.closed + {space}))
  {}
}
