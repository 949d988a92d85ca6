/** Collecting the acknowledgements of one broadcast. */
module BroadcastAck {
  // Each recipient's acknowledgement is one-shot and deferred by delivery; the collector only counts.

  import opened Common

  type Value = int

  datatype Response = Response(recipient: nat, value: Value)

  /** What the callback was called with: success or timeout, and the array it was shown. */
  datatype Outcome = Outcome(ok: bool, responses: seq<Response>)

  datatype State = State(
    recipients: nat,
    acked: seq<bool>,            // captured by the acknowledgement of each recipient
    deferred: seq<Response>,     // microtasks that will call the collector
    emptyDeferred: bool,         // the deferred callback of a broadcast to nobody
    responses: seq<Response>,
    remaining: int,
    settled: bool,
    armed: bool,
    // History.
    arrivals: seq<Response>,
    calls: seq<Outcome>)

  function NoneAcked(n: nat): (r: seq<bool>)
    ensures |r| == n && forall i :: 0 <= i < n ==> !r[i]
  {
    seq(n, _ => false)
  }

  /** `collect` */
  function Collect(n: nat): State {
    State(n, NoneAcked(n), [], n == 0, [], n, false, n > 0, [], [])
  }

  /**
    A recipient calls its acknowledgement: it is consumed before the answer is encoded,
    so an encoding that throws leaves nothing to come.
   */
  function Reply(s: State, i: nat, value: Value, active: bool, encodes: bool): State {
    if i >= |s.acked| || s.acked[i] || !active then s
    else
      var p := s.(acked := s.acked[i := true]);
      if encodes then p.(deferred := p.deferred + [Response(i, value)]) else p
  }

  /** The collector's answer function. */
  function Answer(s: State, r: Response): State {
    if s.settled then s
    else
      var p := s.(responses := s.responses + [r], remaining := s.remaining - 1);
      if p.remaining == 0 then p.(settled := true, armed := false, calls := p.calls + [Outcome(true, p.responses)]) else p
  }

  function Expire(s: State): State {
    if s.settled then s.(armed := false)
    else s.(settled := true, armed := false, calls := s.calls + [Outcome(false, s.responses)])
  }

  datatype Event =
    | Acknowledge(recipient: nat, value: Value, active: bool, encodes: bool)
    | Microtask
    | Timer

  function Step(s: State, e: Event): State {
    match e
    case Acknowledge(i, value, active, encodes) => Reply(s, i, value, active, encodes)
    case Microtask =>
      if s.emptyDeferred then s.(emptyDeferred := false, calls := s.calls + [Outcome(true, [])])
      else if s.deferred == [] then s
      else Answer(s.(deferred := s.deferred[1..], arrivals := s.arrivals + [s.deferred[0]]), s.deferred[0])
    case Timer => if s.armed then Expire(s) else s
  }

  function Run(s: State, events: seq<Event>): State
    decreases |events|
  {
    if events == [] then s else Run(Step(s, events[0]), events[1..])
  }

  /** Each recipient answers at most once, and only if its acknowledgement was consumed. */
  ghost predicate OneShot(s: State) {
    var all := s.arrivals + s.deferred;
    && |s.acked| == s.recipients
    && (forall i :: 0 <= i < |all| ==> all[i].recipient < s.recipients && s.acked[all[i].recipient])
    && (forall i, j :: 0 <= i < j < |all| ==> all[i].recipient != all[j].recipient)
  }

  ghost predicate Counted(s: State) {
    && s.responses <= s.arrivals
    && (!s.settled ==> s.responses == s.arrivals)
    && |s.responses| + s.remaining == s.recipients
    && s.remaining >= 0
  }

  ghost predicate CalledOnce(s: State) {
    && (s.emptyDeferred ==> s.recipients == 0 && s.calls == [])
    && (s.recipients == 0 ==> !s.armed && s.arrivals == [] && !s.settled && (s.calls == [] <==> s.emptyDeferred))
    && (s.recipients > 0 ==> (s.settled <==> s.calls != []) && (s.armed <==> !s.settled))
    && (s.recipients > 0 && !s.settled ==> s.remaining > 0)
    && |s.calls| <= 1
    && (s.calls != [] ==> s.calls[0].responses == s.responses && (s.calls[0].ok <==> s.remaining == 0))
  }

  ghost predicate Sound(s: State) {
    OneShot(s) && Counted(s) && CalledOnce(s)
  }

  lemma ReplySound(s: State, i: nat, value: Value, active: bool, encodes: bool)
    requires Sound(s)
    ensures Sound(Reply(s, i, value, active, encodes))
  {
    var q := Reply(s, i, value, active, encodes);
    if q.deferred != s.deferred {
      assert q.arrivals + q.deferred == (s.arrivals + s.deferred) + [Response(i, value)];
    }
  }

  function Recipients(xs: seq<Response>): set<nat> {
    set i | 0 <= i < |xs| :: xs[i].recipient
  }

  lemma {:induction false} RecipientsSize(xs: seq<Response>)
    requires forall i, j :: 0 <= i < j < |xs| ==> xs[i].recipient != xs[j].recipient
    ensures |Recipients(xs)| == |xs|
  {
    if xs != [] {
      var n := |xs| - 1;
      RecipientsSize(xs[..n]);
      assert Recipients(xs) == Recipients(xs[..n]) + {xs[n].recipient};
      assert xs[n].recipient !in Recipients(xs[..n]);
    }
  }

  /** All recipients. */
  function Everyone(n: nat): (r: set<nat>)
    ensures |r| == n && forall k :: k in r <==> 0 <= k < n
  {
    if n == 0 then {} else Everyone(n - 1) + {n - 1}
  }

  lemma MicrotaskSound(s: State)
    requires Sound(s)
    ensures Sound(Step(s, Microtask))
  {
    if !s.emptyDeferred && s.deferred != [] {
      var q := Step(s, Microtask);
      assert q.arrivals + q.deferred == s.arrivals + s.deferred;
      assert (s.arrivals + s.deferred)[|s.arrivals|] == s.deferred[0];
      assert s.recipients > 0;
    }
  }

  lemma StepSound(s: State, e: Event)
    requires Sound(s)
    ensures Sound(Step(s, e))
  {
    match e {
      case Acknowledge(i, value, active, encodes) => ReplySound(s, i, value, active, encodes);
      case Microtask => MicrotaskSound(s);
      case Timer =>
    }
  }

  lemma {:induction false} RunSound(s: State, events: seq<Event>)
    requires Sound(s)
    ensures Sound(Run(s, events)) && Run(s, events).recipients == s.recipients
    decreases |events|
  {
    hide Sound, Step;
    if events != [] {
      StepSound(s, events[0]);
      SameRecipients(s, events[0]);
      RunSound(Step(s, events[0]), events[1..]);
    }
  }

  lemma SameRecipients(s: State, e: Event)
    ensures Step(s, e).recipients == s.recipients
  {}

  // What the callback is told.

  /** Every recipient contributed exactly one response. */
  ghost predicate Complete(responses: seq<Response>, n: nat) {
    && Recipients(responses) == Everyone(n)
    && (forall i, j :: 0 <= i < j < |responses| ==> responses[i].recipient != responses[j].recipient)
  }

  lemma CompleteCovers(responses: seq<Response>, n: nat)
    requires forall i :: 0 <= i < |responses| ==> responses[i].recipient < n
    requires forall i, j :: 0 <= i < j < |responses| ==> responses[i].recipient != responses[j].recipient
    ensures |responses| == n <==> Complete(responses, n)
  {
    RecipientsSize(responses);
    assert Recipients(responses) <= Everyone(n);
    if |responses| == n { SameSize(Recipients(responses), Everyone(n)); }
  }

  lemma SameSize(small: set<nat>, large: set<nat>)
    requires small <= large && |small| == |large|
    ensures small == large
  {
    forall x | x in large ensures x in small {
      if x !in small { SubsetSize(small + {x}, large); }
    }
  }

  /**
    The callback is called at most once: with success exactly if every recipient answered,
    once each, and otherwise with the answers that had arrived, of some recipients only.
    Both times in the order of arrival; an answer that comes later changes nothing shown.
   */
  lemma CollectorIsExact(n: nat, events: seq<Event>)
    ensures var s := Run(Collect(n), events);
            && |s.calls| <= 1
            && (s.calls != [] ==>
                  var c := s.calls[0];
                  && c.responses == s.responses && c.responses <= s.arrivals
                  && (c.ok <==> Complete(c.responses, n))
                  && (!c.ok ==> |c.responses| < n))
  {
    hide Run;
    RunSound(Collect(n), events);
    var s := Run(Collect(n), events);
    if s.calls != [] {
      var all := s.arrivals + s.deferred;
      forall i | 0 <= i < |s.responses| ensures all[i] == s.responses[i] {}
      CompleteCovers(s.responses, n);
    }
  }

  /** Until the callback has been called its timer is armed, or, with nobody to wait for, its microtask is queued. */
  lemma CollectorAnswersInTime(n: nat, events: seq<Event>)
    ensures var s := Run(Collect(n), events);
            s.calls == [] ==>
              (n == 0 && |Step(s, Microtask).calls| == 1) || (n > 0 && s.armed && |Step(s, Timer).calls| == 1)
  {
    hide Run;
    RunSound(Collect(n), events);
    hide OneShot, Counted;
  }

  /** What the callback was shown stays as it was for the rest of the run. */
  lemma {:induction false} ShownArrayIsFrozen(s: State, events: seq<Event>)
    requires Sound(s) && s.calls != [] && s.recipients > 0
    ensures Run(s, events).calls == s.calls && Run(s, events).responses == s.responses
    decreases |events|
  {
    hide OneShot, Counted;
    if events != [] {
      var q := Step(s, events[0]);
      assert q.calls == s.calls && q.responses == s.responses && q.settled;
      assert OneShot(q) && Counted(q) by { StepSound(s, events[0]); }
      StepSound(s, events[0]);
      SameRecipients(s, events[0]);
      ShownArrayIsFrozen(q, events[1..]);
    }
  }

  /**
    The count alone would not do: if one of two recipients could answer twice, the
    collector would report success without the other.
   */
  lemma CountingNeedsOneShot()
    ensures var s := Answer(Answer(Collect(2), Response(0, 1)), Response(0, 2));
            s.calls == [Outcome(true, [Response(0, 1), Response(0, 2)])]
  {
    var s := Answer(Collect(2), Response(0, 1));
    assert s.responses == [Response(0, 1)] && s.remaining == 1;
    var t := Answer(s, Response(0, 2));
    assert t.responses == [Response(0, 1), Response(0, 2)];
    assert t.calls == [Outcome(true, t.responses)];
  }

  /** The collector itself, with the variables its closures share. */
  class Collector {
    var acked: array<bool>
    var deferred: seq<Response>
    var emptyDeferred: bool
    var responses: seq<Response>
    var remaining: int
    var settled: bool
    var armed: bool
    ghost var arrivals: seq<Response>
    ghost var calls: seq<Outcome>

    ghost function Now(): State
      reads this, acked
    {
      State(acked.Length, acked[..], deferred, emptyDeferred, responses, remaining, settled, armed, arrivals, calls)
    }

    constructor (n: nat)
      ensures Now() == Collect(n) && fresh(acked)
    {
      acked := new bool[n](_ => false);
      deferred, emptyDeferred, responses, remaining := [], n == 0, [], n;
      settled, armed, arrivals, calls := false, n > 0, [], [];
      new;
      assert acked[..] == NoneAcked(n);
    }

    method Acknowledge(i: nat, value: Value, active: bool, encodes: bool)
      modifies this`deferred, acked
      ensures acked == old(acked) && Now() == Reply(old(Now()), i, value, active, encodes)
    {
      if i >= acked.Length || acked[i] || !active { return; }
      acked[i] := true;
      if encodes { deferred := deferred + [Response(i, value)]; }
    }

    method Microtask()
      modifies this
      ensures acked == old(acked) && Now() == Step(old(Now()), Event.Microtask)
    {
      if emptyDeferred {
        emptyDeferred := false;
        calls := calls + [Outcome(true, [])];
        return;
      }
      if deferred == [] { return; }
      var r := deferred[0];
      deferred := deferred[1..];
      arrivals := arrivals + [r];
      if settled { return; }
      responses := responses + [r];
      remaining := remaining - 1;
      if remaining == 0 {
        settled := true;
        armed := false;
        calls := calls + [Outcome(true, responses)];
      }
    }

    method Timer()
      modifies this
      ensures acked == old(acked) && Now() == Step(old(Now()), Event.Timer)
    {
      if !armed { return; }
      armed := false;
      if settled { return; }
      settled := true;
      calls := calls + [Outcome(false, responses)];
    }
  }
}
