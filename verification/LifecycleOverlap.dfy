/**
  Two sockets of one client at the same time. A socket stops lingering in two ways only: its
  attempt is dropped before it connects, or the adapter's removal hook returns and `disconnect`
  is reported. So an earlier socket is still around exactly if it was connected and has not left.
 */
module LifecycleOverlap {
  import opened Common
  import Rooms
  import opened Lifecycle
  import opened LifecycleStanding
  import opened LifecycleOutcomes
  import opened LifecycleTeardown
  import opened LifecycleMembership
  import opened LifecycleRuns
  import opened LifecycleHandover
  import opened LifecycleHandoverRuns
  import opened LifecycleHandoverFrames
  import opened LifecycleDelivery
  import opened LifecycleRoster
  import opened LifecycleSuccession

  // Which steps give a socket, and which ask for an auth payload.

  ghost predicate Gives(s: State, e: Event, q: State) {
    && Attaches(s, e) && q.rooms == s.rooms
    && q.attempts == s.attempts[e.attempt := s.attempts[e.attempt].(server := Some(|s.servers|))]
  }

  ghost predicate AsksOnly(s: State, e: Event, q: State) {
    && e.Microtask? && s.stack == [] && q.rooms == s.rooms
    && NoneGiven(s.attempts, q.attempts)
  }

  lemma StepGives(s: State, e: Event)
    requires Inv(s)
    ensures var q := Step(s, e);
            || Gives(s, e, q) || AsksOnly(s, e, q)
            || (NoneGiven(s.attempts, q.attempts) && NoneAsked(s.attempts, q.attempts))
  {
    hide Inv, Resume, RunTask, AuthenticateCall, DeliverCall, Guard, Arrival;
    TameSelf(s);
    if Enabled(s, e) {
      match e {
        case Return(encodes) => ReturnGives(s, encodes);
        case Microtask => if !Asks(s, s.tasks[0]) { MicrotaskTame(s); } else { AskGives(s); }
        case Broadcast(order) =>
        case Deliver(i) => DeliverGives(s, i);
        case Authenticate(a) => AuthenticateGives(s, a);
        case _ => CallTame(s, e);
      }
    }
  }

  lemma AskGives(s: State)
    requires s.tasks != [] && Asks(s, s.tasks[0])
    ensures var q := RunTask(s.(tasks := s.tasks[1..]), s.tasks[0]); q.rooms == s.rooms && NoneGiven(s.attempts, q.attempts)
  {}

  lemma DeliverGives(s: State, i: nat)
    requires i < |s.packets|
    ensures DeliverCall(s, i).attempts == s.attempts
  {
    hide Guard, Arrival;
  }

  lemma ReturnGives(s: State, encodes: bool)
    requires s.stack != []
    ensures var q := Resume(s.(stack := s.stack[1..]), s.stack[0], encodes);
            NoneGiven(s.attempts, q.attempts) && NoneAsked(s.attempts, q.attempts)
  {
    var p := s.(stack := s.stack[1..]);
    var f := s.stack[0];
    if !f.Sending? && !f.Broadcasting? {
      hide Resume;
      ResumeTame(p, f, encodes);
    }
  }

  lemma AuthenticateGives(s: State, a: nat)
    requires Inv(s) && a < |s.attempts|
    ensures var q := AuthenticateCall(s, a);
            || Gives(s, Authenticate(a), q)
            || (NoneGiven(s.attempts, q.attempts) && NoneAsked(s.attempts, q.attempts))
  {
    hide Inv, Reject, Rooms.Cleanup;
    RejectTame(s, a, true);
  }

  // Attaching a socket while another one lingers.

  /** The step gives the client a socket after `m` while socket `k` lingers. */
  ghost predicate Overlaps(s: State, e: Event, c: nat, m: nat, k: nat) {
    Attaches(s, e) && s.attempts[e.attempt].client == c && m < |s.servers| && Lingering(s.rooms, k)
  }

  ghost predicate OverlapsInRun(s: State, events: seq<Event>, c: nat, m: nat, k: nat)
    decreases |events|
  {
    events != [] && (Overlaps(s, events[0], c, m, k) || OverlapsInRun(Step(s, events[0]), events[1..], c, m, k))
  }

  lemma {:induction false} RunLingers(s: State, events: seq<Event>)
    requires Inv(s)
    ensures LingersLess(s.rooms, Run(s, events).rooms)
    decreases |events|
  {
    hide Inv, Step, Lingering;
    if events != [] {
      StepLingers(s, events[0]);
      StepInv(s, events[0]);
      RunLingers(Step(s, events[0]), events[1..]);
    }
  }

  lemma MovesKeepSuperseded(s: State, q: State, c: nat, m: nat)
    requires Moves(s, q) && Superseded(s.attempts, c, m)
    ensures Superseded(q.attempts, c, m)
  {
    var a :| 0 <= a < |s.attempts| && s.attempts[a].client == c && s.attempts[a].server.Some? && s.attempts[a].server.value > m;
    assert AttemptMoves(s.attempts[a], q.attempts[a]);
  }

  lemma StepSupersedes(s: State, e: Event, c: nat, m: nat)
    requires Inv(s) && !Superseded(s.attempts, c, m) && Superseded(Step(s, e).attempts, c, m)
    ensures Attaches(s, e) && s.attempts[e.attempt].client == c && m < |s.servers|
  {
    hide Inv, Step;
    StepGives(s, e);
    var q := Step(s, e);
    var a :| 0 <= a < |q.attempts| && q.attempts[a].client == c && q.attempts[a].server.Some? && q.attempts[a].server.value > m;
  }

  lemma AttachSupersedes(s: State, e: Event, c: nat, m: nat)
    requires Attaches(s, e) && s.attempts[e.attempt].client == c && m < |s.servers|
    ensures Superseded(Step(s, e).attempts, c, m)
  {
    assert Step(s, e).attempts[e.attempt].server == Some(|s.servers|);
  }

  /** A client is given a later socket while `k` lingers exactly if some step of the run does it. */
  lemma {:induction false} RunOverlaps(s: State, events: seq<Event>, c: nat, m: nat, k: nat)
    requires Inv(s) && !Superseded(s.attempts, c, m) && Lingering(Run(s, events).rooms, k)
    ensures OverlapsInRun(s, events, c, m, k) <==> Superseded(Run(s, events).attempts, c, m)
    decreases |events|
  {
    hide Inv, Step, Superseded, Lingering, Attaches, Moves;
    if events != [] {
      var q := Step(s, events[0]);
      StepInv(s, events[0]);
      RunInv(q, events[1..]);
      RunLingers(s, events);
      if Superseded(q.attempts, c, m) {
        StepSupersedes(s, events[0], c, m);
        MovesKeepSuperseded(q, Run(q, events[1..]), c, m);
      } else {
        if Overlaps(s, events[0], c, m, k) { AttachSupersedes(s, events[0], c, m); }
        RunOverlaps(q, events[1..], c, m, k);
      }
    }
  }

  // How a socket stops lingering.

  ghost predicate DroppedFrom(attempts: seq<Attempt>, v: nat) {
    exists a :: 0 <= a < |attempts| && Dropped(attempts[a]) && attempts[a].server == Some(v)
  }

  /** Whatever stops lingering was dropped, or its `disconnect` is out. */
  ghost predicate Parts(s: State, q: State) {
    forall v :: 0 <= v < |s.servers| && Lingering(s.rooms, v) && !Lingering(q.rooms, v) ==>
      Left(q.log, v) || DroppedFrom(q.attempts, v)
  }

  /** Nothing stops lingering. */
  ghost predicate LingersOn(r: Rooms.State, q: Rooms.State) {
    forall v: nat :: Lingering(r, v) ==> Lingering(q, v)
  }

  lemma AbandonParts(s: State, a: nat, phase: Phase)
    requires Standing(s) && IsPending(s, a) && Over(phase)
    ensures Parts(s, Abandon(s, a, phase)) && Moves(s, Abandon(s, a, phase))
  {
    AbandonMoves(s, a, phase);
    hide Agreed, Linked, OwnServers, Moves;
    var q := Abandon(s, a, phase);
    assert Dropped(q.attempts[a]);
  }

  lemma CancelParts(s: State, c: nat)
    requires Standing(s) && c < |s.clients|
    ensures Parts(s, Cancel(s, c)) && Moves(s, Cancel(s, c))
  {
    hide Standing, Abandon, Moves;
    StillMoves(s, s);
    var attempt := s.clients[c].attempt;
    if attempt.Some? && IsPending(s, attempt.value) { AbandonParts(s, attempt.value, Cancelled); }
  }

  lemma RejectParts(s: State, a: nat, encodes: bool)
    requires Standing(s)
    ensures Parts(s, Reject(s, a, encodes))
  {
    hide Standing, Abandon;
    if IsPending(s, a) { AbandonParts(s, a, Rejected(encodes)); }
  }

  lemma PartsTrans(s: State, q: State, r: State)
    requires Parts(s, q) && Parts(q, r) && Moves(q, r) && |s.servers| == |q.servers| && r.log == q.log
    ensures Parts(s, r)
  {
    hide Lingering, Left;
    forall v | 0 <= v < |s.servers| && Lingering(s.rooms, v) && !Lingering(r.rooms, v)
      ensures Left(r.log, v) || DroppedFrom(r.attempts, v)
    {
      if !Lingering(q.rooms, v) && !Left(q.log, v) {
        var a :| 0 <= a < |q.attempts| && Dropped(q.attempts[a]) && q.attempts[a].server == Some(v);
        assert AttemptMoves(q.attempts[a], r.attempts[a]);
      }
    }
  }

  lemma {:induction false} CancelOthersParts(s: State, i: nat, manager: nat, v: nat)
    requires Standing(s)
    ensures Parts(s, CancelOthers(s, i, manager, v)) && CancelOthers(s, i, manager, v).log == s.log
    decreases |s.clients| - i
  {
    hide Standing, Moves, Parts;
    if i < |s.clients| {
      var q := if i in s.pending && s.clients[i].manager == manager && !Owns(s, i, v) then Cancel(s, i) else s;
      CancelParts(s, i);
      CancelStanding(s, i);
      CancelLog(s, i);
      SelfParts(s);
      CancelOthersParts(q, i + 1, manager, v);
      CancelOthersMoves(q, i + 1, manager, v);
      PartsTrans(s, q, CancelOthers(q, i + 1, manager, v));
    } else {
      SelfParts(s);
    }
  }

  lemma SelfParts(s: State)
    ensures Parts(s, s)
  {}

  /** A socket that is let go of once more has been cleaned before. */
  lemma SpentParts(s: State, v: Option<nat>)
    requires v.Some? ==> v.value in s.rooms.cleaned
    ensures DiscardOf(s, v).rooms == s.rooms
  {}

  lemma GroupNextParts(s: State, order: seq<nat>, next: nat, v: nat)
    requires Standing(s) && v < |s.servers|
    ensures Parts(s, GroupNext(s, order, next, v))
  {
    hide Standing, CancelOthers, Lingering;
    CancelOthersParts(s, 0, ManagerOf(s, v), v);
    if next >= |order| {
      var q := CancelOthers(s, 0, ManagerOf(s, v), v);
      LogKeepsLeft(q, ServerDisconnectCall(q, v));
    }
  }

  lemma LogKeepsLeft(s: State, q: State)
    ensures |s.log| <= |q.log| && q.log[..|s.log|] == s.log ==> forall v: nat :: Left(s.log, v) ==> Left(q.log, v)
  {
    if |s.log| <= |q.log| && q.log[..|s.log|] == s.log {
      forall v: nat | Left(s.log, v) ensures Left(q.log, v) {
        var rooms :| ServerDisconnect(v, rooms) in s.log;
        var i :| 0 <= i < |s.log| && s.log[i] == ServerDisconnect(v, rooms);
        assert q.log[i] == q.log[..|s.log|][i];
      }
    }
  }

  lemma CleanEndParts(s: State, v: nat, sync: bool)
    ensures Parts(s, CleanEndResume(s, v, sync))
  {
    var q := CleanEndResume(s, v, sync);
    var o := ServerDisconnect(v, Rooms.View(q.rooms, v));
    assert q.log == s.log + [o] && o in q.log;
    hide DroppedFrom;
  }

  lemma StagesLinger(s: State, f: Frame, encodes: bool)
    requires !f.AfterConnection? && !f.Group? && !f.CleanEnd?
    ensures LingersOn(s.rooms, Resume(s, f, encodes).rooms)
  {}

  lemma ReturnParts(s: State, encodes: bool)
    requires Inv(s) && s.stack != []
    ensures Parts(s, Resume(s.(stack := s.stack[1..]), s.stack[0], encodes))
  {
    var p := s.(stack := s.stack[1..]);
    var f := s.stack[0];
    if f.AfterConnection? {
      AfterConnectionFacts(s, f.attempt);
      if !IsPending(s, f.attempt) {
        DroppedAtCompletion(s, f.attempt);
        if s.attempts[f.attempt].phase != Established { SpentParts(p, s.attempts[f.attempt].server); }
      }
      hide Inv, DiscardOf;
    } else {
      SameStandingKeeps(s, p);
      hide Inv, Standing, Parts, Lingering, Resume, GroupNext, CleanEndResume;
      OtherParts(p, f, encodes);
      SameParts(s, p, Resume(p, f, encodes));
    }
  }

  lemma OtherParts(s: State, f: Frame, encodes: bool)
    requires Standing(s) && !f.AfterConnection?
    ensures Parts(s, Resume(s, f, encodes))
  {
    hide Standing, GroupNext, CleanEndResume, Left, DroppedFrom;
    if f.Group? {
      if f.initiator < |s.servers| { GroupNextParts(s, f.order, f.next, f.initiator); }
    } else if f.CleanEnd? {
      CleanEndParts(s, f.server, f.sync);
    } else {
      hide Resume, Lingering;
      StagesLinger(s, f, encodes);
    }
  }

  lemma SameParts(s: State, p: State, q: State)
    requires Parts(p, q) && p.servers == s.servers && p.rooms == s.rooms
    ensures Parts(s, q)
  {}

  lemma MicrotaskParts(s: State)
    requires Inv(s) && s.stack == [] && s.tasks != []
    ensures Parts(s, RunTask(s.(tasks := s.tasks[1..]), s.tasks[0]))
  {
    var p := s.(tasks := s.tasks[1..]);
    var t := s.tasks[0];
    SameStandingKeeps(s, p);
    if t.DoneTask? {
      DoneParts(s, t.attempt, t.failed);
    } else {
      if t.PairTask? { RejectParts(p, t.attempt, true); }
      hide Inv, Reject, Lingering, Left, DroppedFrom;
    }
  }

  lemma DoneParts(s: State, a: nat, failed: bool)
    requires Inv(s) && s.stack == [] && s.tasks != [] && s.tasks[0] == DoneTask(a, failed)
    ensures Parts(s, RunDone(s.(tasks := s.tasks[1..]), a, failed))
  {
    var p := s.(tasks := s.tasks[1..]);
    SameStandingKeeps(s, p);
    RejectParts(p, a, true);
    RejectParts(p, a, false);
    if a < |s.attempts| {
      if !IsPending(s, a) && s.attempts[a].phase != Established {
        DroppedAtDone(s, a, failed);
        SpentParts(p, s.attempts[a].server);
      } else if s.attempts[a].server.Some? {
        AdmitRooms(s.rooms, s.attempts[a].server.value);
      }
    }
    hide Inv, Reject, DiscardOf, Lingering, Left, DroppedFrom, Rooms.Join, Rooms.Register;
  }

  lemma CallParts(s: State, e: Event)
    requires Inv(s) && Enabled(s, e) && !e.Return? && !e.Microtask?
    ensures Parts(s, Perform(s, e))
  {
    match e {
      case Disconnect(c) => CancelParts(s, c);
      case CloseSpace(space, order) => TeardownAllSameAttempts(s.(closed := s.closed + {space}), order);
      case Authenticate(a) => RejectParts(s, a, true); AuthenticateParts(s, a);
      case _ =>
    }
    hide Inv, Cancel, AuthenticateCall, TeardownAll, Left, DroppedFrom, Owns, Snapshot, Roster, Guard, Arrival;
  }

  lemma AuthenticateParts(s: State, a: nat)
    requires a < |s.attempts| && Parts(s, Reject(s, a, true))
    ensures Parts(s, AuthenticateCall(s, a))
  {
    hide Reject, Left, DroppedFrom;
  }

  lemma StepParts(s: State, e: Event)
    requires Inv(s)
    ensures Parts(s, Step(s, e))
  {
    hide Inv, Parts, Resume, RunTask;
    SelfParts(s);
    if Enabled(s, e) {
      match e {
        case Return(encodes) => ReturnParts(s, encodes);
        case Microtask => MicrotaskParts(s);
        case _ => CallParts(s, e);
      }
    }
  }

  // What that means for every run.

  /** Every given socket lingers until it leaves or its attempt is dropped. */
  ghost predicate Stays(s: State) {
    forall b :: 0 <= b < |s.attempts| && s.attempts[b].server.Some? && !Lingering(s.rooms, s.attempts[b].server.value) ==>
      Left(s.log, s.attempts[b].server.value) || Dropped(s.attempts[b])
  }

  /** Attempt `a` is under way and was asked for its auth payload; its client dropped `b` before. */
  predicate Follows(attempts: seq<Attempt>, a: nat, b: nat) {
    && a < |attempts| && b < |attempts| && a != b && attempts[a].client == attempts[b].client
    && attempts[a].phase == Pending && attempts[a].asked
    && Dropped(attempts[b]) && attempts[b].server.Some?
  }

  /** Once an attempt is asked for its auth payload, what its client dropped before is gone. */
  ghost predicate AskedAfter(s: State) {
    forall a: nat, b: nat :: Follows(s.attempts, a, b) ==> !Lingering(s.rooms, s.attempts[b].server.value)
  }

  lemma StepKeepsLeft(s: State, e: Event, v: nat)
    requires Inv(s) && Left(s.log, v)
    ensures Left(Step(s, e).log, v)
  {
    hide Standing, Outcomes, Protocol, Membership, Once, LetGo, Perform;
    if Enabled(s, e) {
      PerformLog(s, e);
      var rooms :| ServerDisconnect(v, rooms) in s.log;
      assert ServerDisconnect(v, rooms) in Perform(s, e).log;
    }
  }

  lemma StepStays(s: State, e: Event)
    requires Inv(s) && Stays(s)
    ensures Stays(Step(s, e))
  {
    StepInv(s, e);
    StepParts(s, e);
    StepGives(s, e);
    var q := Step(s, e);
    hide Inv, Step, Left, Attaches;
    forall b | 0 <= b < |q.attempts| && q.attempts[b].server.Some? && !Lingering(q.rooms, q.attempts[b].server.value)
      ensures Left(q.log, q.attempts[b].server.value) || Dropped(q.attempts[b])
    {
      var v := q.attempts[b].server.value;
      if b < |s.attempts| && s.attempts[b].server == Some(v) {
        GivenInRange(s, b);
        assert AttemptMoves(s.attempts[b], q.attempts[b]);
        if !Lingering(s.rooms, v) {
          if Left(s.log, v) { StepKeepsLeft(s, e, v); }
        } else if !Left(q.log, v) {
          OneAttempt(q, b, v);
        }
      } else {
        NeverCleaned(s);
      }
    }
  }

  lemma GivenInRange(s: State, b: nat)
    requires Inv(s) && b < |s.attempts| && s.attempts[b].server.Some?
    ensures s.attempts[b].server.value < |s.servers|
  {
    hide Outcomes, Protocol, Membership, Once, LetGo, Agreed;
  }

  lemma NeverCleaned(s: State)
    requires Inv(s)
    ensures |s.servers| !in s.rooms.cleaned
  {
    hide Standing, Outcomes, Protocol, Once, LetGo, Rooms.Coherent, LeftRooms, DrainFrames;
  }

  lemma OneAttempt(s: State, b: nat, v: nat)
    requires Inv(s) && b < |s.attempts| && s.attempts[b].server == Some(v) && DroppedFrom(s.attempts, v)
    ensures Dropped(s.attempts[b])
  {
    hide Outcomes, Protocol, Membership, Once, LetGo, Agreed, Linked;
  }

  lemma StepAskedAfter(s: State, e: Event)
    requires Inv(s) && AskedAfter(s)
    ensures AskedAfter(Step(s, e))
  {
    StepInv(s, e);
    StepLingers(s, e);
    StepGives(s, e);
    var q := Step(s, e);
    hide Inv, Step, Attaches;
    forall a: nat, b: nat | Follows(q.attempts, a, b) ensures !Lingering(q.rooms, q.attempts[b].server.value) {
      LetGoOf(q, b);
      if AsksOnly(s, e, q) {
        NothingDrained(s);
      } else {
        FollowedBefore(s, e, a, b);
      }
    }
  }

  lemma FollowedBefore(s: State, e: Event, a: nat, b: nat)
    requires Inv(s) && Moves(s, Step(s, e)) && Follows(Step(s, e).attempts, a, b)
    requires var q := Step(s, e);
             Gives(s, e, q) || (NoneGiven(s.attempts, q.attempts) && NoneAsked(s.attempts, q.attempts))
    ensures Follows(s.attempts, a, b) && s.attempts[b].server == Step(s, e).attempts[b].server
  {
    hide Inv, Step;
    var q := Step(s, e);
    assert AttemptMoves(s.attempts[a], q.attempts[a]);
    CurrentAlone(s, a, b);
    assert AttemptMoves(s.attempts[b], q.attempts[b]);
  }

  lemma LetGoOf(s: State, b: nat)
    requires Inv(s) && b < |s.attempts| && Dropped(s.attempts[b]) && s.attempts[b].server.Some?
    ensures s.attempts[b].server.value in s.rooms.cleaned
  {
    hide Standing, Outcomes, Protocol, Membership, Once;
  }

  /** Only one attempt of a client is under way or established. */
  lemma CurrentAlone(s: State, a: nat, b: nat)
    requires Inv(s) && a < |s.attempts| && b < |s.attempts| && a != b && s.attempts[a].client == s.attempts[b].client
    requires s.attempts[a].phase == Pending
    ensures Over(s.attempts[b].phase)
  {
    hide Outcomes, Protocol, Membership, Once, LetGo;
  }

  lemma InitialDepartures(s: State)
    requires Initial(s)
    ensures Stays(s) && AskedAfter(s)
  {}

  lemma {:induction false} RunDepartures(s: State, events: seq<Event>)
    requires Inv(s) && Stays(s) && AskedAfter(s)
    ensures Stays(Run(s, events)) && AskedAfter(Run(s, events))
    decreases |events|
  {
    hide Inv, Stays, AskedAfter, Step;
    if events != [] {
      StepStays(s, events[0]);
      StepAskedAfter(s, events[0]);
      StepInv(s, events[0]);
      RunDepartures(Step(s, events[0]), events[1..]);
    }
  }
}
