/**
  Outcomes of connection attempts: what has been reported of each attempt, and what is still
  queued or on the stack, in every reachable state. Nothing is reported twice because what
  is reported is no longer due.
 */
module LifecycleOutcomes {
  import opened Common
  import Rooms
  import opened Lifecycle
  import opened LifecycleStanding

  // Tasks.

  ghost predicate TasksInRange(tasks: seq<Task>, attempts: nat, servers: nat) {
    forall t :: t in tasks ==>
      match t
      case PairTask(a) => a < attempts
      case DoneTask(a, _) => a < attempts
      case ErrorTask(a) => a < attempts
      case TeardownTask(v) => v < servers
      case MarkTask(v) => v < servers
      case CloseMarkTask(v) => v < servers
  }

  /** Queued at most once. */
  predicate Single(t: Task) {
    !t.MarkTask? && !t.CloseMarkTask?
  }

  ghost predicate TasksDistinct(tasks: seq<Task>) {
    forall i, j :: 0 <= i < j < |tasks| && Single(tasks[i]) ==> tasks[i] != tasks[j]
  }

  predicate DoneQueued(tasks: seq<Task>, a: nat) {
    DoneTask(a, true) in tasks || DoneTask(a, false) in tasks
  }

  ghost predicate TasksMatch(attempts: seq<Attempt>, servers: seq<Server>, tasks: seq<Task>) {
    && (forall a :: 0 <= a < |attempts| && DoneQueued(tasks, a) ==>
          attempts[a].completed && !(DoneTask(a, true) in tasks && DoneTask(a, false) in tasks))
    && (forall a :: 0 <= a < |attempts| && ErrorTask(a) in tasks ==> attempts[a].phase == Rejected(true))
    && (forall v :: 0 <= v < |servers| && TeardownTask(v) in tasks ==> servers[v].torn)
  }

  // Frames.

  predicate Base(f: Frame) {
    f.AfterConnection? || f.Flushing?
  }

  /** A microtask starts on an empty stack. */
  ghost predicate BaseAtBottom(stack: seq<Frame>) {
    forall i :: 0 <= i < |stack| - 1 ==> !Base(stack[i])
  }

  // The log and what is still to be reported of an attempt.

  ghost predicate AdmissionLog(attempts: seq<Attempt>, tasks: seq<Task>, stack: seq<Frame>, log: seq<Observation>) {
    && (forall a: nat :: ServerConnection(a) in log ==>
          a < |attempts| && attempts[a].completed && !DoneQueued(tasks, a))
    && (forall a: nat :: AfterConnection(a) in stack ==>
          ServerConnection(a) in log && a < |attempts| && !attempts[a].connected)
    && (forall a :: 0 <= a < |attempts| && attempts[a].connected ==> ServerConnection(a) in log)
  }

  ghost predicate ConnectLog(attempts: seq<Attempt>, stack: seq<Frame>, log: seq<Observation>) {
    && (forall a: nat :: ClientConnect(a) in log ==> a < |attempts| && attempts[a].connected)
    && (forall a: nat :: Flushing(a) in stack ==>
          a < |attempts| && attempts[a].connected && ClientConnect(a) !in log)
  }

  ghost predicate ErrorLog(attempts: seq<Attempt>, tasks: seq<Task>, log: seq<Observation>) {
    && (forall a: nat :: ClientError(a) in log ==>
          a < |attempts| && attempts[a].phase == Rejected(true) && ErrorTask(a) !in tasks)
    && (forall a :: 0 <= a < |attempts| && attempts[a].phase == Rejected(true) ==>
          ErrorTask(a) in tasks || ClientError(a) in log)
  }

  /** Two reports of the same thing. */
  predicate Same(o: Observation, p: Observation) {
    || (o.ServerConnection? && p.ServerConnection? && o.attempt == p.attempt)
    || (o.ClientConnect? && p.ClientConnect? && o.attempt == p.attempt)
    || (o.ClientError? && p.ClientError? && o.attempt == p.attempt)
    || (o.ServerDisconnecting? && p.ServerDisconnecting? && o.server == p.server)
    || (o.ServerDisconnect? && p.ServerDisconnect? && o.server == p.server)
  }

  ghost predicate Once(log: seq<Observation>) {
    forall i, j :: 0 <= i < j < |log| ==> !Same(log[i], log[j])
  }

  /** The client hears of its connection after the server does. */
  ghost predicate ServerFirst(log: seq<Observation>) {
    forall j :: 0 <= j < |log| && log[j].ClientConnect? ==> ServerConnection(log[j].attempt) in log[..j]
  }

  ghost predicate Outcomes(s: State) {
    && TasksInRange(s.tasks, |s.attempts|, |s.servers|)
    && TasksDistinct(s.tasks)
    && TasksMatch(s.attempts, s.servers, s.tasks)
    && BaseAtBottom(s.stack)
    && AdmissionLog(s.attempts, s.tasks, s.stack, s.log)
    && ConnectLog(s.attempts, s.stack, s.log)
    && ErrorLog(s.attempts, s.tasks, s.log)
    && ServerFirst(s.log)
  }

  // Steps that add no task, no base frame and no report about an attempt.

  /** Attempts move, but no report about them is due or made. */
  ghost predicate SameReports(attempts: seq<Attempt>, next: seq<Attempt>) {
    && |next| == |attempts|
    && forall a :: 0 <= a < |attempts| ==>
         && (attempts[a].completed == next[a].completed)
         && (attempts[a].connected == next[a].connected)
         && (attempts[a].phase == Rejected(true) <==> next[a].phase == Rejected(true))
  }

  predicate AboutAttempt(o: Observation) {
    o.ServerConnection? || o.ClientConnect? || o.ClientError?
  }

  /** `q`'s log has at most one more entry, about no attempt. */
  ghost predicate QuietLog(log: seq<Observation>, next: seq<Observation>) {
    next == log || exists o :: next == log + [o] && !AboutAttempt(o)
  }

  /** Frames other than base frames come and go. */
  ghost predicate QuietStack(stack: seq<Frame>, next: seq<Frame>) {
    && (forall f :: f in next && Base(f) ==> f in stack)
    && BaseAtBottom(next)
  }

  ghost predicate QuietServers(servers: seq<Server>, next: seq<Server>) {
    && |servers| <= |next|
    && (forall v :: 0 <= v < |servers| && servers[v].torn ==> next[v].torn)
  }

  ghost predicate Quiet(s: State, q: State) {
    && SameReports(s.attempts, q.attempts) && QuietServers(s.servers, q.servers)
    && q.tasks == s.tasks && QuietStack(s.stack, q.stack) && QuietLog(s.log, q.log)
  }

  lemma QuietLogMembers(log: seq<Observation>, next: seq<Observation>)
    requires QuietLog(log, next)
    ensures forall o :: AboutAttempt(o) ==> (o in log <==> o in next)
    ensures ServerFirst(log) ==> ServerFirst(next)
  {
    if next != log {
      assert next == log + [next[|log|]];
      forall j | 0 <= j < |next| && next[j].ClientConnect? && ServerFirst(log)
        ensures ServerConnection(next[j].attempt) in next[..j]
      {
        assert next[..j] == log[..j];
      }
    }
  }

  lemma QuietKeeps(s: State, q: State)
    requires Outcomes(s) && Quiet(s, q)
    ensures Outcomes(q)
  {
    hide ServerFirst, TasksDistinct;
    QuietLogMembers(s.log, q.log);
  }

  lemma PopTaskKeeps(s: State)
    requires Outcomes(s) && s.tasks != [] && !s.tasks[0].ErrorTask?
    ensures Outcomes(s.(tasks := s.tasks[1..]))
  {
    hide ServerFirst;
    PopMembers(s.tasks);
  }

  lemma PopFrameKeeps(s: State)
    requires Outcomes(s) && s.stack != []
    ensures Outcomes(s.(stack := s.stack[1..]))
  {
    hide ServerFirst, TasksDistinct;
    PopMembers(s.stack);
  }

  lemma CancelQuiet(s: State, c: nat)
    requires c < |s.clients| && BaseAtBottom(s.stack)
    ensures Quiet(s, Cancel(s, c))
  {}

  lemma QuietTrans(s: State, q: State, r: State)
    requires Quiet(s, q) && Quiet(q, r) && (q.log == s.log || r.log == q.log)
    ensures Quiet(s, r)
  {}

  lemma {:induction false} CancelOthersQuiet(s: State, i: nat, manager: nat, v: nat)
    requires BaseAtBottom(s.stack)
    ensures Quiet(s, CancelOthers(s, i, manager, v)) && CancelOthers(s, i, manager, v).log == s.log
    ensures CancelOthers(s, i, manager, v).stack == s.stack
    decreases |s.clients| - i
  {
    hide Quiet, BaseAtBottom;
    if i >= |s.clients| {
      QuietSelf(s);
    } else {
      var q := if i in s.pending && s.clients[i].manager == manager && !Owns(s, i, v) then Cancel(s, i) else s;
      QuietSelf(s);
      CancelQuiet(s, i);
      CancelOthersQuiet(q, i + 1, manager, v);
      QuietTrans(s, q, CancelOthers(q, i + 1, manager, v));
    }
  }

  lemma QuietSelf(s: State)
    requires BaseAtBottom(s.stack)
    ensures Quiet(s, s)
  {}

  lemma ServerDisconnectQuiet(s: State, v: nat)
    requires v < |s.servers| && BaseAtBottom(s.stack)
    ensures Quiet(s, ServerDisconnectCall(s, v))
  {
    if !s.servers[v].torn {
      var o := ServerDisconnecting(v, Rooms.View(s.rooms, v));
      assert ServerDisconnectCall(s, v).log == s.log + [o] && !AboutAttempt(o);
    }
  }

  lemma PushQuiet(s: State, f: Frame)
    requires BaseAtBottom(s.stack) && !Base(f)
    ensures Quiet(s, Push(s, f)) && BaseAtBottom(Push(s, f).stack)
  {}

  lemma GroupNextQuiet(s: State, order: seq<nat>, next: nat, v: nat)
    requires v < |s.servers| && BaseAtBottom(s.stack)
    ensures Quiet(s, GroupNext(s, order, next, v))
  {
    hide CancelOthers, Quiet, BaseAtBottom, ServerDisconnectCall;
    if next < |order| {
      var q := Push(s, Group(order, next + 1, v));
      PushQuiet(s, Group(order, next + 1, v));
      var c := order[next];
      if c < |s.clients| && s.clients[c].connected && s.clients[c].server.Some?
         && s.clients[c].server.value < |s.servers|
      {
        ServerDisconnectQuiet(q, s.clients[c].server.value);
        QuietTrans(s, q, ServerDisconnectCall(q, s.clients[c].server.value));
      }
    } else {
      CancelOthersQuiet(s, 0, ManagerOf(s, v), v);
      var q := CancelOthers(s, 0, ManagerOf(s, v), v);
      ServerDisconnectQuiet(q, v);
      QuietTrans(s, q, ServerDisconnectCall(q, v));
    }
  }

  // Calls and frames that leave the queue alone.

  predicate EnqueuesNothing(e: Event) {
    || e.Disconnect? || e.DisconnectServer? || e.DisconnectGroup? || e.JoinRoom? || e.LeaveRoom?
    || e.Emit? || e.Broadcast? || e.Deliver?
  }

  lemma DeliverQuiet(s: State, i: nat)
    requires i < |s.packets| && BaseAtBottom(s.stack)
    ensures Quiet(s, DeliverCall(s, i))
  {
    var p := s.packets[i];
    if p.via < |s.servers| && s.servers[p.via].client < |s.clients| && Guard(s, p) {
      var o := Arrival(s, p);
      assert DeliverCall(s, i).log == s.log + [o] && !AboutAttempt(o);
    }
  }

  lemma CallQuiet(s: State, e: Event)
    requires Standing(s) && Enabled(s, e) && EnqueuesNothing(e) && BaseAtBottom(s.stack)
    ensures Quiet(s, Perform(s, e))
  {
    hide Standing, DeliverCall, Cancel, ServerDisconnectCall;
    match e {
      case Disconnect(c) =>
        if !s.clients[c].connected { CancelQuiet(s, c); } else { MarkQuiet(s, c); }
      case DisconnectServer(v) => ServerDisconnectQuiet(s, v);
      case Deliver(i) => DeliverQuiet(s, i);
      case _ =>
    }
  }

  lemma AuthenticateQuiet(s: State, a: nat)
    requires a < |s.attempts| && BaseAtBottom(s.stack) && !SpaceClosed(s, a)
    ensures Quiet(s, AuthenticateCall(s, a))
  {}

  // Enqueueing.

  lemma EnqueueKeeps(s: State, t: Task)
    requires Outcomes(s) && t !in s.tasks
    requires TasksInRange([t], |s.attempts|, |s.servers|)
    requires t.PairTask? || t.MarkTask? || t.CloseMarkTask? || (t.TeardownTask? && t.server < |s.servers| && s.servers[t.server].torn)
    ensures Outcomes(Enqueue(s, t))
  {
    hide ServerFirst;
    assert t in [t];
  }

  lemma MarkTaskKeeps(s: State, t: Task)
    requires Outcomes(s) && (t.MarkTask? || t.CloseMarkTask?) && t.server < |s.servers|
    ensures Outcomes(Enqueue(s, t))
  {
    hide ServerFirst;
    assert t in [t];
  }

  lemma ConnectOutcomes(s: State, c: nat)
    requires Outcomes(s) && c < |s.clients|
    ensures Outcomes(ConnectCall(s, c))
  {
    hide ServerFirst, BaseAtBottom;
    var q := ConnectCall(s, c);
    if q != s {
      var a := |s.attempts|;
      assert PairTask(a) !in s.tasks && !DoneQueued(s.tasks, a) && ErrorTask(a) !in s.tasks;
    }
  }

  lemma TeardownOutcomes(s: State, v: nat, closing: bool)
    requires Outcomes(s) && v < |s.servers|
    ensures Outcomes(Teardown(s, v, closing))
  {
    if !s.servers[v].torn {
      var q := SetServer(s, v, s.servers[v].(torn := true, closing := closing));
      QuietKeeps(s, q);
      EnqueueKeeps(q, TeardownTask(v));
    }
  }

  lemma {:induction false} TeardownAllOutcomes(s: State, order: seq<nat>)
    requires Outcomes(s)
    ensures Outcomes(TeardownAll(s, order))
    decreases |order|
  {
    hide Outcomes, Teardown;
    if order != [] {
      var q := if order[0] < |s.servers| then Teardown(s, order[0], true) else s;
      if order[0] < |s.servers| { TeardownOutcomes(s, order[0], true); }
      TeardownAllOutcomes(q, order[1..]);
    }
  }

  lemma CompleteTasks(s: State, a: nat, failed: bool, encodes: bool)
    requires Outcomes(s) && a < |s.attempts| && !s.attempts[a].completed
    ensures var r := CompleteCall(s, a, failed, encodes);
            && TasksInRange(r.tasks, |r.attempts|, |r.servers|) && TasksDistinct(r.tasks)
            && TasksMatch(r.attempts, r.servers, r.tasks)
  {
    hide ServerFirst, BaseAtBottom, AdmissionLog, ConnectLog, ErrorLog;
    assert !DoneQueued(s.tasks, a);
  }

  lemma CompleteOutcomes(s: State, a: nat, failed: bool, encodes: bool)
    requires Outcomes(s) && a < |s.attempts|
    ensures Outcomes(CompleteCall(s, a, failed, encodes))
  {
    hide ServerFirst, BaseAtBottom, TasksInRange, TasksDistinct, TasksMatch;
    if s.attempts[a].server.Some? && !s.attempts[a].completed { CompleteTasks(s, a, failed, encodes); }
  }

  /** What a rejection does to the fields that reports depend on. */
  lemma RejectShape(s: State, a: nat, encodes: bool)
    requires IsPending(s, a)
    ensures var r := Reject(s, a, encodes);
            && r.attempts == s.attempts[a := s.attempts[a].(phase := Rejected(encodes))]
            && r.tasks == (if encodes then s.tasks + [ErrorTask(a)] else s.tasks) && r.stack == s.stack && r.log == s.log
            && |r.servers| == |s.servers|
            && (forall v :: 0 <= v < |s.servers| ==> r.servers[v].torn == s.servers[v].torn)
  {}

  lemma RejectTasks(s: State, a: nat, encodes: bool)
    requires Outcomes(s) && IsPending(s, a)
    ensures var r := Reject(s, a, encodes);
            && TasksInRange(r.tasks, |r.attempts|, |r.servers|) && TasksDistinct(r.tasks)
            && TasksMatch(r.attempts, r.servers, r.tasks)
  {
    hide ServerFirst, BaseAtBottom, AdmissionLog, ConnectLog, ErrorLog, Reject;
    RejectShape(s, a, encodes);
    assert ErrorTask(a) !in s.tasks;
  }

  lemma RejectLogs(s: State, a: nat, encodes: bool)
    requires Outcomes(s) && IsPending(s, a)
    ensures var r := Reject(s, a, encodes);
            && AdmissionLog(r.attempts, r.tasks, r.stack, r.log)
            && ConnectLog(r.attempts, r.stack, r.log)
            && ErrorLog(r.attempts, r.tasks, r.log)
  {
    hide ServerFirst, BaseAtBottom, TasksDistinct, TasksInRange, Reject;
    RejectShape(s, a, encodes);
  }

  lemma RejectOutcomes(s: State, a: nat, encodes: bool)
    requires Outcomes(s)
    ensures Outcomes(Reject(s, a, encodes))
  {
    hide ServerFirst, BaseAtBottom, TasksDistinct, TasksInRange, TasksMatch, AdmissionLog, ConnectLog, ErrorLog;
    if IsPending(s, a) {
      RejectTasks(s, a, encodes);
      RejectLogs(s, a, encodes);
      RejectShape(s, a, encodes);
    }
  }

  // Microtasks.

  lemma RunPairOutcomes(s: State, a: nat)
    requires Outcomes(s)
    ensures Outcomes(RunPair(s, a))
  {
    hide Outcomes, Reject;
    if IsPending(s, a) && SpaceClosed(s, a) { RejectOutcomes(s, a, true); }
    else if IsPending(s, a) { AskOutcomes(s, a); }
  }

  lemma AskOutcomes(s: State, a: nat)
    requires Outcomes(s) && a < |s.attempts|
    ensures Outcomes(SetAttempt(s, a, s.attempts[a].(asked := true)))
  {
    QuietKeeps(s, SetAttempt(s, a, s.attempts[a].(asked := true)));
  }

  lemma DiscardOutcomes(s: State, v: Option<nat>)
    requires Outcomes(s)
    ensures Outcomes(DiscardOf(s, v))
  {
    QuietKeeps(s, DiscardOf(s, v));
  }

  lemma AdmitLogs(s: State, a: nat, v: nat)
    requires Outcomes(s) && v < |s.servers| && a < |s.attempts|
    requires s.stack == [] && s.attempts[a].completed && !s.attempts[a].connected && !DoneQueued(s.tasks, a)
    ensures var r := Admit(s, a, v);
            && AdmissionLog(r.attempts, r.tasks, r.stack, r.log)
            && ConnectLog(r.attempts, r.stack, r.log)
            && ErrorLog(r.attempts, r.tasks, r.log)
  {
    hide ServerFirst, TasksDistinct, TasksInRange, TasksMatch;
  }

  lemma AppendServerFirst(log: seq<Observation>, o: Observation)
    requires ServerFirst(log)
    requires o.ClientConnect? ==> ServerConnection(o.attempt) in log
    ensures ServerFirst(log + [o])
  {
    var next := log + [o];
    forall j | 0 <= j < |next| && next[j].ClientConnect?
      ensures ServerConnection(next[j].attempt) in next[..j]
    {
      if j < |log| { assert next[..j] == log[..j]; } else { assert next[..j] == log; }
    }
  }

  lemma AdmitOutcomes(s: State, a: nat, v: nat)
    requires Outcomes(s) && v < |s.servers| && a < |s.attempts|
    requires s.stack == [] && s.attempts[a].completed && !s.attempts[a].connected && !DoneQueued(s.tasks, a)
    ensures Outcomes(Admit(s, a, v))
  {
    hide ServerFirst, TasksDistinct, AdmissionLog, ConnectLog, ErrorLog;
    AdmitLogs(s, a, v);
    AppendServerFirst(s.log, ServerConnection(a));
  }

  lemma RunDoneOutcomes(s: State, a: nat, failed: bool)
    requires Outcomes(s) && Flagged(s.attempts) && s.stack == []
    requires a < |s.attempts| ==> s.attempts[a].completed && !DoneQueued(s.tasks, a)
    ensures Outcomes(RunDone(s, a, failed))
  {
    hide Outcomes;
    if a < |s.attempts| {
      RejectOutcomes(s, a, true);
      RejectOutcomes(s, a, false);
      DiscardOutcomes(s, s.attempts[a].server);
      if IsPending(s, a) && s.attempts[a].server.Some? && s.attempts[a].server.value < |s.servers| {
        AdmitOutcomes(s, a, s.attempts[a].server.value);
      }
    }
  }

  lemma ErrorOutcomes(s: State, a: nat)
    requires Outcomes(s) && s.tasks != [] && s.tasks[0] == ErrorTask(a)
    ensures Outcomes(Observe(s.(tasks := s.tasks[1..]), ClientError(a)))
  {
    hide TasksDistinct, TasksInRange, TasksMatch, BaseAtBottom, AdmissionLog, ConnectLog, ErrorLog, ServerFirst;
    PopErrorTasks(s, a);
    PopErrorLogs(s, a);
    AppendServerFirst(s.log, ClientError(a));
  }

  lemma PopErrorTasks(s: State, a: nat)
    requires Outcomes(s) && s.tasks != [] && s.tasks[0] == ErrorTask(a)
    ensures TasksInRange(s.tasks[1..], |s.attempts|, |s.servers|) && TasksDistinct(s.tasks[1..])
    ensures TasksMatch(s.attempts, s.servers, s.tasks[1..])
  {
    hide BaseAtBottom, AdmissionLog, ConnectLog, ErrorLog, ServerFirst;
    PopMembers(s.tasks);
  }

  lemma PopErrorLogs(s: State, a: nat)
    requires Outcomes(s) && s.tasks != [] && s.tasks[0] == ErrorTask(a)
    ensures var log := s.log + [ClientError(a)];
            && AdmissionLog(s.attempts, s.tasks[1..], s.stack, log)
            && ConnectLog(s.attempts, s.stack, log)
            && ErrorLog(s.attempts, s.tasks[1..], log)
  {
    hide BaseAtBottom, ServerFirst;
    assert Single(s.tasks[0]);
    assert ErrorTask(a) !in s.tasks[1..];
    PopMembers(s.tasks);
  }

  lemma RunTeardownQuiet(s: State, v: nat)
    requires v < |s.servers| && s.stack == []
    ensures Quiet(s, RunTeardown(s, v))
  {
    var o := ServerDisconnecting(v, Rooms.View(s.rooms, v));
    assert RunTeardown(s, v).log == s.log + [o] && !AboutAttempt(o);
  }

  lemma RunMarkQuiet(s: State, v: nat)
    requires Standing(s) && BaseAtBottom(s.stack)
    ensures Quiet(s, RunMark(s, v))
  {
    if RunMark(s, v) != s { MarkQuiet(s, s.servers[v].client); }
  }

  lemma MarkQuiet(s: State, c: nat)
    requires Standing(s) && BaseAtBottom(s.stack) && c < |s.clients| && s.clients[c].connected
    ensures Quiet(s, MarkDisconnected(s, c))
  {
    assert ClientAgrees(s.clients, s.attempts, s.pending, s.connected, c);
  }

  lemma MicrotaskOutcomes(s: State)
    requires Outcomes(s) && Standing(s) && s.stack == [] && s.tasks != []
    ensures Outcomes(RunTask(s.(tasks := s.tasks[1..]), s.tasks[0]))
  {
    hide Outcomes, Standing, RunPair, RunDone, RunMark, RunTeardown, Quiet;
    var p := s.(tasks := s.tasks[1..]);
    var t := s.tasks[0];
    SameStandingKeeps(s, p);
    if !t.ErrorTask? { PopTaskKeeps(s); }
    match t {
      case PairTask(a) => RunPairOutcomes(p, a);
      case DoneTask(a, failed) =>
        DoneHead(s);
        RunDoneOutcomes(p, a, failed);
      case ErrorTask(a) => ErrorOutcomes(s, a);
      case TeardownTask(v) =>
        if v < |p.servers| {
          RunTeardownQuiet(p, v);
          QuietKeeps(p, RunTeardown(p, v));
        }
      case MarkTask(v) =>
        RunMarkQuiet(p, v);
        QuietKeeps(p, RunMark(p, v));
      case CloseMarkTask(v) =>
        RunMarkQuiet(p, v);
        QuietKeeps(p, RunMark(p, v));
    }
  }

  lemma DoneHead(s: State)
    requires Outcomes(s) && Standing(s) && s.tasks != [] && s.tasks[0].DoneTask?
    ensures Flagged(s.attempts)
    ensures var a := s.tasks[0].attempt;
            a < |s.attempts| ==> s.attempts[a].completed && !DoneQueued(s.tasks[1..], a)
  {
    var a := s.tasks[0].attempt;
    if a < |s.attempts| {
      assert DoneQueued(s.tasks, a);
      assert forall i :: 0 < i < |s.tasks| ==> s.tasks[i] != s.tasks[0];
      PopMembers(s.tasks);
    }
  }

  // Frames.

  lemma EstablishLogs(s: State, rest: seq<Frame>, a: nat)
    requires Outcomes(s) && Flagged(s.attempts) && s.stack == [AfterConnection(a)] + rest && rest == []
    requires IsPending(s, a)
    ensures var r := CompleteAttempt(s.(stack := rest), a);
            && AdmissionLog(r.attempts, r.tasks, r.stack, r.log)
            && ConnectLog(r.attempts, r.stack, r.log)
            && ErrorLog(r.attempts, r.tasks, r.log)
  {
    hide ServerFirst, TasksDistinct, TasksInRange, TasksMatch;
    assert AfterConnection(a) in s.stack;
    assert ClientConnect(a) !in s.log;
  }

  lemma EstablishOutcomes(s: State, a: nat)
    requires Outcomes(s) && Flagged(s.attempts) && s.stack != [] && s.stack[0] == AfterConnection(a)
    ensures Outcomes(CompleteAttempt(s.(stack := s.stack[1..]), a))
  {
    var rest := s.stack[1..];
    var p := s.(stack := rest);
    assert Base(s.stack[0]);
    assert rest == [] && s.stack == [AfterConnection(a)] + rest;
    if IsPending(p, a) {
      EstablishLogs(s, rest, a);
      EstablishTasks(s, a);
    } else {
      PopFrameKeeps(s);
      if a < |s.attempts| { DiscardOutcomes(p, s.attempts[a].server); }
    }
  }

  lemma EstablishTasks(s: State, a: nat)
    requires Outcomes(s) && IsPending(s, a)
    ensures TasksMatch(s.attempts[a := s.attempts[a].(phase := Established, connected := true)], s.servers, s.tasks)
  {}

  lemma FlushedOutcomes(s: State, a: nat)
    requires Outcomes(s) && s.stack != [] && s.stack[0] == Flushing(a)
    ensures Outcomes(Observe(s.(stack := s.stack[1..]), ClientConnect(a)))
  {
    hide TasksDistinct, TasksInRange, TasksMatch, ServerFirst;
    assert Base(s.stack[0]);
    assert s.stack[1..] == [];
    assert Flushing(a) in s.stack;
    AppendServerFirst(s.log, ClientConnect(a));
  }

  lemma CleanQuiet(s: State, v: nat, sync: bool)
    requires BaseAtBottom(s.stack)
    ensures v < |s.servers| ==> Quiet(s, CleanResume(s, v, sync))
    ensures Quiet(s, CleanEndResume(s, v, sync))
  {
    var rooms := Rooms.CleanEnd(s.rooms, v);
    var o := ServerDisconnect(v, Rooms.View(rooms, v));
    assert CleanEndResume(s, v, sync).log == s.log + [o] && !AboutAttempt(o);
  }

  lemma EndedOutcomes(s: State, v: nat, sync: bool)
    requires Outcomes(s) && v < |s.servers|
    ensures Outcomes(EndedResume(s, v, sync))
  {
    hide Outcomes;
    MarkTaskKeeps(s, MarkTask(v));
    MarkTaskKeeps(s, CloseMarkTask(v));
  }

  lemma TailOutcomes(s: State, c: nat)
    requires Outcomes(s)
    ensures Outcomes(TailResume(s, c))
  {
    hide Outcomes;
    if c < |s.clients| && s.clients[c].server.Some? && s.clients[c].server.value < |s.servers| {
      TeardownOutcomes(s, s.clients[c].server.value, false);
    }
  }

  lemma SendQuiet(s: State, f: Frame, encodes: bool)
    requires BaseAtBottom(s.stack) && (f.Sending? || f.Broadcasting?)
    ensures Quiet(s, Resume(s, f, encodes))
  {
    match f {
      case Sending(v, broadcast, was) =>
      case Broadcasting(order) =>
        if order != [] {
          var q := Push(s, Broadcasting(order[1..]));
          PushQuiet(s, Broadcasting(order[1..]));
          if order[0] < |s.servers| && s.servers[order[0]].client < |s.clients| {
            var g := Sending(order[0], true, s.clients[s.servers[order[0]].client].connected);
            PushQuiet(q, g);
            QuietTrans(s, q, Push(q, g));
          }
        }
    }
  }

  lemma ReturnOutcomes(s: State, encodes: bool)
    requires Outcomes(s) && Standing(s) && s.stack != []
    requires s.stack[0].Ended? ==> s.stack[0].server < |s.servers|
    ensures Outcomes(Resume(s.(stack := s.stack[1..]), s.stack[0], encodes))
  {
    hide Outcomes, Standing, GroupNext, CleanResume, CleanEndResume, EndedResume, TailResume, Quiet,
         SendingResume, BroadcastingResume, CompleteAttempt;
    var p := s.(stack := s.stack[1..]);
    var f := s.stack[0];
    PopFrameKeeps(s);
    BottomOf(p);
    match f {
      case AfterConnection(a) => StandingFlags(s); EstablishOutcomes(s, a);
      case Flushing(a) => FlushedOutcomes(s, a);
      case Tail(c) => TailOutcomes(p, c);
      case Clean(v, sync) =>
        if v < |p.servers| {
          CleanQuiet(p, v, sync);
          QuietKeeps(p, CleanResume(p, v, sync));
        }
      case CleanEnd(v, sync) =>
        CleanQuiet(p, v, sync);
        QuietKeeps(p, CleanEndResume(p, v, sync));
      case Ended(v, sync) => EndedOutcomes(p, v, sync);
      case Group(order, next, v) =>
        if v < |p.servers| {
          GroupNextQuiet(p, order, next, v);
          QuietKeeps(p, GroupNext(p, order, next, v));
        }
      case Sending(v, broadcast, was) =>
        SendQuiet(p, f, encodes);
        QuietKeeps(p, Resume(p, f, encodes));
      case Broadcasting(order) =>
        SendQuiet(p, f, encodes);
        QuietKeeps(p, Resume(p, f, encodes));
    }
  }

  lemma BottomOf(s: State)
    requires Outcomes(s)
    ensures BaseAtBottom(s.stack)
  {}

  lemma StandingFlags(s: State)
    requires Standing(s)
    ensures Flagged(s.attempts)
  {}

  lemma PerformOutcomes(s: State, e: Event)
    requires Outcomes(s) && Standing(s) && Enabled(s, e)
    requires s.stack != [] && s.stack[0].Ended? ==> s.stack[0].server < |s.servers|
    ensures Outcomes(Perform(s, e))
  {
    hide Outcomes, Standing, Quiet, Resume, RunTask, TeardownAll, CompleteCall, ConnectCall, AuthenticateCall, BaseAtBottom;
    BottomOf(s);
    if EnqueuesNothing(e) {
      CallQuiet(s, e);
      QuietKeeps(s, Perform(s, e));
    } else {
      match e {
        case Connect(c) => ConnectOutcomes(s, c);
        case CloseSpace(space, order) =>
          var q := s.(closed := s.closed + {space});
          ClosedOutcomes(s, space);
          TeardownAllOutcomes(q, order);
        case Authenticate(a) => AuthenticateOutcomes(s, a);
        case Complete(a, failed, encodes) => CompleteOutcomes(s, a, failed, encodes);
        case Return(encodes) => ReturnOutcomes(s, encodes);
        case Microtask => MicrotaskOutcomes(s);
      }
    }
  }

  lemma ClosedOutcomes(s: State, space: nat)
    requires Outcomes(s)
    ensures Outcomes(s.(closed := s.closed + {space}))
  {}

  lemma AuthenticateOutcomes(s: State, a: nat)
    requires Outcomes(s) && a < |s.attempts|
    ensures Outcomes(AuthenticateCall(s, a))
  {
    hide Outcomes, Quiet;
    BottomOf(s);
    if SpaceClosed(s, a) { RejectOutcomes(s, a, true); }
    else {
      AuthenticateQuiet(s, a);
      QuietKeeps(s, AuthenticateCall(s, a));
    }
  }
}
