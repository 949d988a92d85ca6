/**
  Attempts whose middleware answered with an error that cannot be encoded.

  Only the call that completes the middleware chain makes an attempt one of them, so a run
  without such a call tells every rejection to its client.
 */
module LifecycleRejections {
  import opened Common
  import Rooms
  import opened Lifecycle
  import opened LifecycleRuns

  /** No other attempt is marked. */
  ghost predicate NoneMuted(s: State, q: State) {
    && |s.attempts| <= |q.attempts|
    && forall a :: 0 <= a < |q.attempts| && q.attempts[a].mute ==> a < |s.attempts| && s.attempts[a].mute
  }

  lemma {:induction false} CancelOthersMutesNone(s: State, i: nat, manager: nat, v: nat)
    ensures NoneMuted(s, CancelOthers(s, i, manager, v))
    decreases |s.clients| - i
  {
    if i < |s.clients| {
      var q := if i in s.pending && s.clients[i].manager == manager && !Owns(s, i, v) then Cancel(s, i) else s;
      CancelMutesNone(s, i);
      CancelOthersMutesNone(q, i + 1, manager, v);
    }
  }

  lemma CancelMutesNone(s: State, c: nat)
    requires c < |s.clients|
    ensures NoneMuted(s, Cancel(s, c)) && NoneMuted(s, MarkDisconnected(s, c))
  {}

  lemma RejectMutesNone(s: State, a: nat, encodes: bool)
    ensures NoneMuted(s, Reject(s, a, encodes))
  {}

  lemma ResumeMutesNone(s: State, f: Frame, encodes: bool)
    ensures NoneMuted(s, Resume(s, f, encodes))
  {
    hide CancelOthers, Owns;
    match f {
      case Group(order, next, v) => CancelOthersMutesNone(s, 0, ManagerOf(s, v), v);
      case _ =>
    }
  }

  lemma RunTaskMutesNone(s: State, t: Task)
    ensures NoneMuted(s, RunTask(s, t))
  {
    hide Reject, MarkDisconnected;
    match t {
      case PairTask(a) => RejectMutesNone(s, a, true);
      case DoneTask(a, failed) => RejectMutesNone(s, a, true); RejectMutesNone(s, a, false);
      case MarkTask(v) => if RunMark(s, v) != s { CancelMutesNone(s, s.servers[v].client); }
      case CloseMarkTask(v) => if RunMark(s, v) != s { CancelMutesNone(s, s.servers[v].client); }
      case _ =>
    }
  }

  lemma PerformMutesNone(s: State, e: Event)
    requires Enabled(s, e) && !(e.Complete? && e.failed && !e.encodes)
    ensures NoneMuted(s, Perform(s, e))
  {
    hide Resume, RunTask, Cancel, MarkDisconnected, Reject, TeardownAll, Guard, Superseded, Current;
    match e {
      case Disconnect(c) => CancelMutesNone(s, c);
      case CloseSpace(space, order) => TeardownAllSameAttempts(s.(closed := s.closed + {space}), order);
      case Authenticate(a) => RejectMutesNone(s, a, true);
      case Return(encodes) => ResumeMutesNone(s.(stack := s.stack[1..]), s.stack[0], encodes);
      case Microtask => RunTaskMutesNone(s.(tasks := s.tasks[1..]), s.tasks[0]);
      case _ =>
    }
  }

  lemma StepMutes(s: State, e: Event, a: nat)
    ensures var q := Step(s, e);
            a < |q.attempts| && q.attempts[a].mute && !(a < |s.attempts| && s.attempts[a].mute) ==> e == Complete(a, true, false)
  {
    if Enabled(s, e) && !(e.Complete? && e.failed && !e.encodes) {
      hide Perform;
      PerformMutesNone(s, e);
    }
  }

  lemma {:induction false} RunMutes(s: State, events: seq<Event>, a: nat)
    ensures var q := Run(s, events);
            a < |q.attempts| && q.attempts[a].mute && !(a < |s.attempts| && s.attempts[a].mute) ==> Complete(a, true, false) in events
    decreases |events|
  {
    hide Step;
    if events != [] {
      StepMutes(s, events[0], a);
      RunMutes(Step(s, events[0]), events[1..], a);
    }
  }
}
