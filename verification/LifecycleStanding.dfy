/**
  Client, attempt and Manager agree: what holds of clients, attempts and the Managers'
  rosters in every reachable state, whatever the application does and wherever it does it.
 */
module LifecycleStanding {
  import opened Common
  import Rooms
  import opened Lifecycle

  ghost predicate Linked(clients: seq<Client>, attempts: seq<Attempt>, servers: seq<Server>) {
    && (forall v :: 0 <= v < |servers| ==> servers[v].client < |clients|)
    && (forall a :: 0 <= a < |attempts| ==> attempts[a].client < |clients|)
    && (forall a :: 0 <= a < |attempts| && attempts[a].server.Some? ==>
          attempts[a].server.value < |servers| && servers[attempts[a].server.value].client == attempts[a].client)
    && (forall c :: 0 <= c < |clients| && clients[c].server.Some? ==>
          clients[c].server.value < |servers| && servers[clients[c].server.value].client == c)
  }

  ghost predicate OwnServers(attempts: seq<Attempt>) {
    forall a, b :: 0 <= a < b < |attempts| && attempts[a].server.Some? ==> attempts[a].server != attempts[b].server
  }

  /** The order in which an attempt's flags are raised. */
  ghost predicate Flagged(attempts: seq<Attempt>) {
    forall a :: 0 <= a < |attempts| ==>
      && (attempts[a].completed ==> attempts[a].server.Some?)
      && (attempts[a].server.Some? ==> attempts[a].asked)
      && (attempts[a].phase == Established ==> attempts[a].connected)
      && (attempts[a].phase == Rejected(false) ==> attempts[a].mute)
      && (attempts[a].mute ==> attempts[a].completed)
      && (attempts[a].connected ==> attempts[a].completed && attempts[a].phase in {Established, Cancelled})
  }

  /** The state of a client, its current attempt and its Manager's two rosters are one. */
  ghost predicate ClientAgrees(clients: seq<Client>, attempts: seq<Attempt>, pending: set<nat>, connected: set<nat>, c: nat)
    requires c < |clients|
  {
    match clients[c].attempt
    case None => !clients[c].connected && clients[c].id == None && c !in pending && c !in connected
    case Some(a) =>
      && a < |attempts| && attempts[a].client == c
      && if attempts[a].phase == Pending
         then !clients[c].connected && clients[c].id == None && c in pending && c !in connected
         else && attempts[a].phase == Established && clients[c].connected && c !in pending && c in connected
              && clients[c].id.Some? && clients[c].id == clients[c].server == attempts[a].server
  }

  ghost predicate Agreed(clients: seq<Client>, attempts: seq<Attempt>, pending: set<nat>, connected: set<nat>) {
    && (forall c :: 0 <= c < |clients| ==> ClientAgrees(clients, attempts, pending, connected, c))
    && (forall a :: 0 <= a < |attempts| && attempts[a].phase in {Pending, Established} ==>
          attempts[a].client < |clients| && clients[attempts[a].client].attempt == Some(a))
  }

  ghost predicate Standing(s: State) {
    && Linked(s.clients, s.attempts, s.servers)
    && OwnServers(s.attempts)
    && Flagged(s.attempts)
    && Agreed(s.clients, s.attempts, s.pending, s.connected)
  }

  /** Changes no client, attempt or roster, and no server socket's owner. */
  ghost predicate SameStanding(s: State, q: State) {
    && q.clients == s.clients && q.attempts == s.attempts && q.pending == s.pending && q.connected == s.connected
    && |q.servers| == |s.servers| && (forall v :: 0 <= v < |s.servers| ==> q.servers[v].client == s.servers[v].client)
  }

  lemma SameStandingKeeps(s: State, q: State)
    requires Standing(s) && SameStanding(s, q)
    ensures Standing(q)
  {}

  lemma ConnectStanding(s: State, c: nat)
    requires Standing(s) && c < |s.clients|
    ensures Standing(ConnectCall(s, c))
  {
    var q := ConnectCall(s, c);
    if q != s {
      assert ClientAgrees(s.clients, s.attempts, s.pending, s.connected, c);
      assert s.clients[c].attempt == None;
      forall d | 0 <= d < |q.clients|
        ensures ClientAgrees(q.clients, q.attempts, q.pending, q.connected, d)
      {
        assert ClientAgrees(s.clients, s.attempts, s.pending, s.connected, d);
      }
    }
  }

  lemma DiscardStanding(s: State, v: Option<nat>)
    ensures SameStanding(s, DiscardOf(s, v))
  {}

  lemma AbandonStanding(s: State, a: nat, phase: Phase)
    requires Standing(s) && IsPending(s, a) && (phase.Cancelled? || phase.Rejected?)
    requires phase == Rejected(false) ==> s.attempts[a].mute
    ensures Standing(Abandon(s, a, phase))
  {
    var c := s.attempts[a].client;
    var q := s.(attempts := s.attempts[a := s.attempts[a].(phase := phase)],
                clients := s.clients[c := s.clients[c].(attempt := None)],
                pending := s.pending - {c});
    assert ClientAgrees(s.clients, s.attempts, s.pending, s.connected, c);
    forall d | 0 <= d < |q.clients|
      ensures ClientAgrees(q.clients, q.attempts, q.pending, q.connected, d)
    {
      assert ClientAgrees(s.clients, s.attempts, s.pending, s.connected, d);
    }
    assert Standing(q);
    DiscardStanding(q, s.attempts[a].server);
    SameStandingKeeps(q, Abandon(s, a, phase));
  }

  lemma CancelStanding(s: State, c: nat)
    requires Standing(s) && c < |s.clients|
    ensures Standing(Cancel(s, c))
  {
    hide Standing;
    if Cancel(s, c) != s { AbandonStanding(s, s.clients[c].attempt.value, Cancelled); }
  }

  lemma RejectStanding(s: State, a: nat, encodes: bool)
    requires Standing(s) && (encodes || (a < |s.attempts| && s.attempts[a].mute))
    ensures Standing(Reject(s, a, encodes))
  {
    hide Standing;
    if IsPending(s, a) {
      AbandonStanding(s, a, Rejected(encodes));
      SameStandingKeeps(Abandon(s, a, Rejected(encodes)), Reject(s, a, encodes));
    }
  }

  lemma MarkStanding(s: State, c: nat)
    requires Standing(s) && c < |s.clients| && s.clients[c].connected
    ensures Standing(MarkDisconnected(s, c))
  {
    var q := MarkDisconnected(s, c);
    assert ClientAgrees(s.clients, s.attempts, s.pending, s.connected, c);
    forall d | 0 <= d < |q.clients|
      ensures ClientAgrees(q.clients, q.attempts, q.pending, q.connected, d)
    {
      assert ClientAgrees(s.clients, s.attempts, s.pending, s.connected, d);
    }
  }

  /** Flags and the server of one pending attempt may be set; nothing else moves. */
  lemma FlagStanding(s: State, a: nat, attempt: Attempt)
    requires Standing(s) && a < |s.attempts|
    requires attempt.client == s.attempts[a].client && attempt.phase == s.attempts[a].phase
    requires attempt.connected == s.attempts[a].connected
    requires attempt.server == s.attempts[a].server
    requires s.attempts[a].asked ==> attempt.asked
    requires s.attempts[a].completed ==> attempt.completed && attempt.mute == s.attempts[a].mute
    requires attempt.completed ==> attempt.server.Some?
    requires attempt.mute ==> attempt.completed
    ensures Standing(SetAttempt(s, a, attempt))
  {
    var q := SetAttempt(s, a, attempt);
    forall d | 0 <= d < |q.clients|
      ensures ClientAgrees(q.clients, q.attempts, q.pending, q.connected, d)
    {
      assert ClientAgrees(s.clients, s.attempts, s.pending, s.connected, d);
    }
  }

  /** A new server socket exists, attached to nothing yet. */
  function Spawn(s: State, c: nat): State {
    s.(servers := s.servers + [Server(c, false, true, false, false)])
  }

  lemma SpawnStanding(s: State, c: nat)
    requires Standing(s) && c < |s.clients|
    ensures Standing(Spawn(s, c))
  {}

  lemma AttachStanding(s: State, a: nat)
    requires Standing(s) && IsPending(s, a) && s.attempts[a].asked && s.attempts[a].server == None
    ensures var q := Spawn(s, s.attempts[a].client);
            Standing(SetAttempt(q, a, s.attempts[a].(server := Some(|s.servers|))))
  {
    var p := Spawn(s, s.attempts[a].client);
    var q := SetAttempt(p, a, s.attempts[a].(server := Some(|s.servers|)));
    forall d | 0 <= d < |q.clients|
      ensures ClientAgrees(q.clients, q.attempts, q.pending, q.connected, d)
    {
      assert ClientAgrees(s.clients, s.attempts, s.pending, s.connected, d);
    }
  }

  lemma AuthenticateStanding(s: State, a: nat)
    requires Standing(s) && a < |s.attempts|
    ensures Standing(AuthenticateCall(s, a))
  {
    if !s.attempts[a].asked || !IsPending(s, a) {
    } else if SpaceClosed(s, a) {
      RejectStanding(s, a, true);
    } else if s.attempts[a].server.Some? {
      SpawnStanding(s, s.attempts[a].client);
      var q := Spawn(s, s.attempts[a].client);
      SameStandingKeeps(q, Discard(q, |s.servers|));
    } else {
      AttachStanding(s, a);
    }
  }

  lemma EstablishStanding(s: State, a: nat)
    requires Standing(s) && a < |s.attempts| && s.attempts[a].completed
    ensures Standing(CompleteAttempt(s, a))
  {
    var q := CompleteAttempt(s, a);
    if IsPending(s, a) {
      var c := s.attempts[a].client;
      assert ClientAgrees(s.clients, s.attempts, s.pending, s.connected, c);
      forall d | 0 <= d < |q.clients|
        ensures ClientAgrees(q.clients, q.attempts, q.pending, q.connected, d)
      {
        assert ClientAgrees(s.clients, s.attempts, s.pending, s.connected, d);
      }
    } else {
      DiscardStanding(s, s.attempts[a].server);
      SameStandingKeeps(s, q);
    }
  }

  lemma {:induction false} CancelOthersStanding(s: State, i: nat, manager: nat, v: nat)
    requires Standing(s)
    ensures Standing(CancelOthers(s, i, manager, v))
    decreases |s.clients| - i
  {
    hide Standing;
    if i < |s.clients| {
      var q := if i in s.pending && s.clients[i].manager == manager && !Owns(s, i, v) then Cancel(s, i) else s;
      CancelStanding(s, i);
      CancelOthersStanding(q, i + 1, manager, v);
    }
  }

  lemma TeardownSame(s: State, v: nat, closing: bool)
    requires v < |s.servers|
    ensures SameStanding(s, Teardown(s, v, closing)) && SameStanding(s, ServerDisconnectCall(s, v))
  {}

  lemma {:induction false} TeardownAllSame(s: State, order: seq<nat>)
    ensures SameStanding(s, TeardownAll(s, order))
    decreases |order|
  {
    if order != [] {
      TeardownAllSame(if order[0] < |s.servers| then Teardown(s, order[0], true) else s, order[1..]);
    }
  }

  lemma GroupNextStanding(s: State, order: seq<nat>, next: nat, v: nat)
    requires Standing(s) && v < |s.servers|
    ensures Standing(GroupNext(s, order, next, v))
  {
    hide Standing, CancelOthers;
    if next >= |order| {
      CancelOthersStanding(s, 0, ManagerOf(s, v), v);
      var q := CancelOthers(s, 0, ManagerOf(s, v), v);
      TeardownSame(q, v, false);
      SameStandingKeeps(q, ServerDisconnectCall(q, v));
    } else {
      SameStandingKeeps(s, GroupNext(s, order, next, v));
    }
  }

  /** Frames that complete an attempt belong to attempts whose middleware has reported. */
  ghost predicate AdmittedFrames(attempts: seq<Attempt>, stack: seq<Frame>) {
    forall a: nat :: AfterConnection(a) in stack ==> a < |attempts| && attempts[a].completed
  }

  lemma ResumeStanding(s: State, f: Frame, encodes: bool)
    requires Standing(s)
    requires f.AfterConnection? ==> f.attempt < |s.attempts| && s.attempts[f.attempt].completed
    ensures Standing(Resume(s, f, encodes))
  {
    hide Standing, GroupNext;
    match f {
      case AfterConnection(a) => EstablishStanding(s, a);
      case Group(order, next, v) => if v < |s.servers| { GroupNextStanding(s, order, next, v); }
      case _ => SameStandingKeeps(s, Resume(s, f, encodes));
    }
  }

  lemma RunTaskStanding(s: State, t: Task)
    requires Standing(s)
    ensures Standing(RunTask(s, t))
  {
    match t {
      case PairTask(a) =>
        if IsPending(s, a) && SpaceClosed(s, a) { RejectStanding(s, a, true); }
        else if IsPending(s, a) { FlagStanding(s, a, s.attempts[a].(asked := true)); }
      case DoneTask(a, failed) => RunDoneStanding(s, a, failed);
      case ErrorTask(a) => SameStandingKeeps(s, RunTask(s, t));
      case TeardownTask(v) => SameStandingKeeps(s, RunTask(s, t));
      case MarkTask(v) => if RunMark(s, v) != s { MarkStanding(s, s.servers[v].client); }
      case CloseMarkTask(v) => if RunMark(s, v) != s { MarkStanding(s, s.servers[v].client); }
    }
  }

  lemma RunDoneStanding(s: State, a: nat, failed: bool)
    requires Standing(s)
    ensures Standing(RunDone(s, a, failed))
  {
    hide Standing;
    RejectStanding(s, a, true);
    if a < |s.attempts| && failed {
      RejectStanding(s, a, !s.attempts[a].mute);
    } else if a < |s.attempts| && RunDone(s, a, failed) != Reject(s, a, true) {
      DiscardStanding(s, s.attempts[a].server);
      SameStandingKeeps(s, RunDone(s, a, failed));
    }
  }

  lemma PerformStanding(s: State, e: Event)
    requires Standing(s) && AdmittedFrames(s.attempts, s.stack) && Enabled(s, e)
    ensures Standing(Perform(s, e))
  {
    hide Standing, Resume, RunTask, TeardownAll;
    match e {
      case Connect(c) => ConnectStanding(s, c);
      case Disconnect(c) =>
        if s.clients[c].connected {
          MarkStanding(s, c);
          SameStandingKeeps(MarkDisconnected(s, c), Perform(s, e));
        } else { CancelStanding(s, c); }
      case CloseSpace(space, order) =>
        TeardownAllSame(s.(closed := s.closed + {space}), order);
        SameStandingKeeps(s, Perform(s, e));
      case Authenticate(a) => AuthenticateStanding(s, a);
      case Complete(a, failed, encodes) =>
        if s.attempts[a].server.Some? && !s.attempts[a].completed {
          FlagStanding(s, a, s.attempts[a].(completed := true, mute := failed && !encodes));
          SameStandingKeeps(SetAttempt(s, a, s.attempts[a].(completed := true, mute := failed && !encodes)), Perform(s, e));
        }
      case Return(encodes) =>
        var p := s.(stack := s.stack[1..]);
        SameStandingKeeps(s, p);
        ResumeStanding(p, s.stack[0], encodes);
      case Microtask =>
        var p := s.(tasks := s.tasks[1..]);
        SameStandingKeeps(s, p);
        RunTaskStanding(p, s.tasks[0]);
      case _ => SameStandingKeeps(s, Perform(s, e));
    }
  }
}
