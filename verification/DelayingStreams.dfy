/** The streams a delaying adapter delivers. */
module DelayingStreams {
  // They are conserved, in order, and never early, in every run.

  import opened Common
  import opened DelayingAdapter

  // Every thunk is delivered, about to be drained, or queued, in this order.

  function Thunks(entries: seq<Entry>): (r: seq<Thunk>)
    ensures |r| == |entries|
  {
    seq(|entries|, i requires 0 <= i < |entries| => entries[i].thunk)
  }

  function Delivered(log: seq<Delivery>, sid: Sid): seq<Thunk> {
    if log == [] then []
    else Delivered(log[..|log| - 1], sid) + (if log[|log| - 1].sid == sid then [log[|log| - 1].thunk] else [])
  }

  /** What drains under way have still to deliver. */
  function Undrained(stack: seq<Frame>, sid: Sid): seq<Thunk> {
    if stack == [] then []
    else (if stack[0].Draining? && stack[0].sid == sid then Thunks(stack[0].rest) else []) + Undrained(stack[1..], sid)
  }

  function Queued(s: State, sid: Sid): seq<Thunk> {
    if sid in s.queues then Thunks(s.queues[sid].entries) else []
  }

  function Upto(n: nat): seq<Thunk> {
    seq(n, i => i)
  }

  ghost predicate Conserved(s: State, sid: Sid) {
    Delivered(s.log, sid) + Undrained(s.stack, sid) + Queued(s, sid) == Upto(Asked(s, sid))
  }

  lemma DeliveredGrows(log: seq<Delivery>, d: Delivery, sid: Sid)
    ensures Delivered(log + [d], sid) == Delivered(log, sid) + (if d.sid == sid then [d.thunk] else [])
  {
    assert (log + [d])[..|log|] == log;
  }

  lemma {:induction false} NotDraining(stack: seq<Frame>, sid: Sid)
    requires !InDrain(stack, sid)
    ensures Undrained(stack, sid) == []
  {
    if stack != [] {
      assert !(stack[0].Draining? && stack[0].sid == sid);
      forall i | 0 <= i < |stack[1..]| ensures !(stack[1..][i].Draining? && stack[1..][i].sid == sid) {
        assert stack[1..][i] == stack[i + 1];
      }
      NotDraining(stack[1..], sid);
    }
  }

  // Which closures are pending.

  ghost predicate Pending(s: State, r: Run) {
    r in s.timers || r in s.microtasks
  }

  ghost predicate Live(queues: map<Sid, Queue>, r: Run) {
    r.sid in queues && queues[r.sid].id == r.queue
  }

  ghost predicate QueueIds(queues: map<Sid, Queue>, made: nat) {
    && (forall sid :: sid in queues ==> queues[sid].id < made)
    && (forall sid, other :: sid in queues && other in queues && queues[sid].id == queues[other].id ==> sid == other)
  }

  ghost predicate RunIds(s: State) {
    forall r :: Pending(s, r) ==>
      r.queue < s.made && forall sid :: sid in s.queues && s.queues[sid].id == r.queue ==> sid == r.sid
  }

  ghost predicate FrameIds(s: State) {
    forall f :: f in s.stack ==>
      f.queue < s.made && (f.AfterDeliver? ==> forall sid :: sid in s.queues && s.queues[sid].id == f.queue ==> sid == f.sid)
  }

  /** A closure that can still deliver holds the head of its queue, which is not being delivered. */
  ghost predicate LiveHeads(s: State) {
    forall r :: Pending(s, r) && Live(s.queues, r) ==>
      && AfterDeliver(r.sid, r.queue) !in s.stack
      && s.queues[r.sid].entries != [] && r.head == s.queues[r.sid].entries[0]
  }

  /** Every queue whose head is not being delivered has its head scheduled. */
  ghost predicate Armed(s: State) {
    forall sid :: sid in s.queues && AfterDeliver(sid, s.queues[sid].id) !in s.stack ==>
      s.queues[sid].entries != [] && Pending(s, Run(sid, s.queues[sid].id, s.queues[sid].entries[0]))
  }

  /** A closure is pending once. */
  ghost predicate PendingOnce(s: State) {
    && (forall i, j :: 0 <= i < j < |s.microtasks| ==> s.microtasks[i] != s.microtasks[j])
    && (forall i :: 0 <= i < |s.microtasks| ==> s.microtasks[i] !in s.timers)
  }

  /** A delivery by closure starts on an empty stack. */
  ghost predicate AtBottom(stack: seq<Frame>) {
    forall i :: 0 <= i < |stack| - 1 ==> !stack[i].AfterDeliver?
  }

  /** Deliveries are in time, and never early unless drained. */
  ghost predicate OnTime(s: State) {
    && (forall i :: 0 <= i < |s.log| ==> s.log[i].at <= s.now && (!s.log[i].drained ==> s.log[i].fireAt <= s.log[i].at))
    && (forall i, j :: 0 <= i < j < |s.log| ==> s.log[i].at <= s.log[j].at)
    && (forall r :: r in s.microtasks ==> r.head.fireAt <= s.now)
  }

  ghost predicate DrainOwns(stack: seq<Frame>, r: Run) {
    exists f: Frame :: f in stack && f.Draining? && f.timer == Some(r)
  }

  /** Every armed timer belongs to a queue in use, or to a drain that will cancel it. */
  ghost predicate TimersOwned(s: State) {
    forall r :: r in s.timers ==>
      (Live(s.queues, r) && r.sid in s.scheduled && s.scheduled[r.sid] == r) || DrainOwns(s.stack, r)
  }

  ghost predicate ScheduledOnly(s: State) {
    forall sid :: sid in s.scheduled ==>
      && sid in s.queues && s.scheduled[sid].sid == sid && s.scheduled[sid].queue == s.queues[sid].id
      && s.scheduled[sid] in s.timers
  }

  /** What a drain will cancel belongs to no queue in use. */
  ghost predicate DrainTimersDead(s: State) {
    forall f: Frame :: f in s.stack && f.Draining? && f.timer.Some? ==>
      f.timer.value.queue < s.made && forall sid :: sid in s.queues ==> s.queues[sid].id != f.timer.value.queue
  }

  ghost predicate Ids(s: State) {
    QueueIds(s.queues, s.made) && RunIds(s) && FrameIds(s)
  }

  ghost predicate Sound(s: State) {
    && Ids(s) && LiveHeads(s) && Armed(s) && PendingOnce(s) && AtBottom(s.stack) && OnTime(s)
    && TimersOwned(s) && ScheduledOnly(s) && DrainTimersDead(s)
  }

  // Conservation, operation by operation.

  lemma PumpConserves(s: State, sid: Sid, other: Sid)
    ensures Queued(Pump(s, sid), other) == Queued(s, other)
    ensures Pump(s, sid).log == s.log && Pump(s, sid).stack == s.stack && Pump(s, sid).asked == s.asked
  {}

  lemma AppendLast(d: seq<Thunk>, u: seq<Thunk>, w: seq<Thunk>, n: nat)
    requires d + u + w == Upto(n)
    ensures d + u + (w + [n]) == Upto(n + 1)
  {
    assert d + u + (w + [n]) == (d + u + w) + [n];
    assert Upto(n + 1) == Upto(n) + [n];
  }

  lemma MoveFirst(d: seq<Thunk>, x: Thunk, t: seq<Thunk>, u: seq<Thunk>, w: seq<Thunk>)
    ensures d + (([x] + t) + u) + w == (d + [x]) + (t + u) + w
  {}

  lemma ThunksHead(entries: seq<Entry>)
    requires entries != []
    ensures Thunks(entries) == [entries[0].thunk] + Thunks(entries[1..])
  {}

  lemma ThunksLast(entries: seq<Entry>, e: Entry)
    ensures Thunks(entries + [e]) == Thunks(entries) + [e.thunk]
  {}

  function NextEntry(s: State, sid: Sid): Entry {
    Entry(Asked(s, sid), s.now + (if sid in s.delays then s.delays[sid] else 0))
  }

  /** A queue for a socket that has none, before it is pumped. */
  function WithQueue(s: State, sid: Sid): State {
    s.(asked := s.asked[sid := Asked(s, sid) + 1],
       queues := s.queues[sid := Queue(s.made, [NextEntry(s, sid)])], made := s.made + 1)
  }

  function WithEntry(s: State, sid: Sid): State
    requires sid in s.queues
  {
    s.(asked := s.asked[sid := Asked(s, sid) + 1],
       queues := s.queues[sid := s.queues[sid].(entries := s.queues[sid].entries + [NextEntry(s, sid)])])
  }

  lemma ScheduleCases(s: State, sid: Sid)
    ensures sid in s.queues ==> Schedule(s, sid) == WithEntry(s, sid)
    ensures sid !in s.queues ==> Schedule(s, sid) == Pump(WithQueue(s, sid), sid)
  {}

  lemma WithEntryParts(s: State, sid: Sid, other: Sid)
    requires sid in s.queues
    ensures Queued(WithEntry(s, sid), other) == Queued(s, other) + (if sid == other then [Asked(s, sid)] else [])
  {
    hide Thunks;
    ThunksLast(s.queues[sid].entries, NextEntry(s, sid));
  }

  lemma WithQueueParts(s: State, sid: Sid, other: Sid)
    requires sid !in s.queues
    ensures Queued(WithQueue(s, sid), other) == Queued(s, other) + (if sid == other then [Asked(s, sid)] else [])
  {
    assert Thunks([NextEntry(s, sid)]) == [Asked(s, sid)];
    hide Thunks;
  }

  lemma ScheduleParts(s: State, sid: Sid, other: Sid)
    ensures var q := Schedule(s, sid);
            && q.log == s.log && q.stack == s.stack
            && Queued(q, other) == Queued(s, other) + (if sid == other then [Asked(s, sid)] else [])
            && Asked(q, other) == Asked(s, other) + (if sid == other then 1 else 0)
  {
    ScheduleCases(s, sid);
    hide Schedule, Pump, Thunks, Queued;
    if sid in s.queues {
      WithEntryParts(s, sid, other);
    } else {
      WithQueueParts(s, sid, other);
      PumpConserves(WithQueue(s, sid), sid, other);
    }
  }

  lemma ScheduleConserves(s: State, sid: Sid, other: Sid)
    requires Conserved(s, other)
    ensures Conserved(Schedule(s, sid), other)
  {
    ScheduleParts(s, sid, other);
    hide Delivered, Undrained, Upto, Queued, Schedule;
    if other == sid {
      AppendLast(Delivered(s.log, sid), Undrained(s.stack, sid), Queued(s, sid), Asked(s, sid));
    } else {
      assert Queued(s, other) + [] == Queued(s, other);
    }
  }

  lemma RunConserves(s: State, r: Run, sid: Sid)
    requires Conserved(s, sid) && s.stack == []
    requires Live(s.queues, r) ==> s.queues[r.sid].entries != [] && r.head == s.queues[r.sid].entries[0]
    ensures Conserved(RunNow(s, r), sid)
  {
    var q := RunNow(s, r);
    if Live(s.queues, r) {
      DeliveredGrows(s.log, q.log[|s.log|], sid);
      assert Undrained(q.stack, sid) == [];
      if sid == r.sid {
        var entries := s.queues[sid].entries;
        assert Thunks(entries) == [entries[0].thunk] + Thunks(entries[1..]);
      }
    }
  }

  /** What one step of a drain does to the three parts of a stream. */
  lemma DrainParts(s: State, sid: Sid, queue: nat, rest: seq<Entry>, timer: Option<Run>, other: Sid)
    requires rest != []
    ensures var q := DrainNext(s, sid, queue, rest, timer);
            && Delivered(q.log, other) == Delivered(s.log, other) + (if sid == other then [rest[0].thunk] else [])
            && Undrained(q.stack, other) == (if sid == other then Thunks(rest[1..]) else []) + Undrained(s.stack, other)
            && Queued(q, other) == Queued(s, other) && Asked(q, other) == Asked(s, other)
  {
    hide Delivered, Thunks, Queued;
    var q := DrainNext(s, sid, queue, rest, timer);
    SameQueued(s, q, other);
    DeliveredGrows(s.log, q.log[|s.log|], other);
    assert q.stack[1..] == s.stack;
  }

  lemma DrainConserves(s: State, sid: Sid, queue: nat, rest: seq<Entry>, timer: Option<Run>, other: Sid)
    requires Delivered(s.log, other) + ((if sid == other then Thunks(rest) else []) + Undrained(s.stack, other)) + Queued(s, other)
             == Upto(Asked(s, other))
    ensures Conserved(DrainNext(s, sid, queue, rest, timer), other)
  {
    hide Delivered, Upto, Thunks, Queued, Undrained;
    if rest == [] {
      assert Thunks(rest) == [];
      assert [] + Undrained(s.stack, other) == Undrained(s.stack, other);
      SameQueued(s, DrainNext(s, sid, queue, rest, timer), other);
    } else {
      DrainParts(s, sid, queue, rest, timer, other);
      hide DrainNext;
      ThunksHead(rest);
      if sid == other {
        MoveFirst(Delivered(s.log, other), rest[0].thunk, Thunks(rest[1..]), Undrained(s.stack, other), Queued(s, other));
      } else {
        assert Delivered(s.log, other) + [] == Delivered(s.log, other);
      }
    }
  }

  lemma SameQueued(s: State, q: State, sid: Sid)
    requires q.queues == s.queues
    ensures Queued(q, sid) == Queued(s, sid)
  {}

  lemma RemoveConserves(s: State, sid: Sid, other: Sid)
    requires Conserved(s, other) && !InDrain(s.stack, sid)
    ensures Conserved(Remove(s, sid), other)
  {
    hide Delivered, Undrained, Upto, Thunks;
    if sid in s.queues {
      var p := s.(delays := s.delays - {sid}, queues := s.queues - {sid}, scheduled := s.scheduled - {sid});
      if other == sid { NotDraining(s.stack, sid); }
      DrainConserves(p, sid, s.queues[sid].id, s.queues[sid].entries,
                     if sid in s.scheduled then Some(s.scheduled[sid]) else None, other);
    }
  }

  lemma ReturnConserves(s: State, other: Sid)
    requires Conserved(s, other) && s.stack != []
    ensures Conserved(Resume(s.(stack := s.stack[1..]), s.stack[0]), other)
  {
    hide Delivered, Upto, Thunks, Queued;
    var p := s.(stack := s.stack[1..]);
    SameQueued(s, p, other);
    match s.stack[0] {
      case AfterDeliver(sid, queue) =>
        assert [] + Undrained(p.stack, other) == Undrained(p.stack, other);
        PumpConserves(p, sid, other);
      case Draining(sid, queue, rest, timer) => DrainConserves(p, sid, queue, rest, timer, other);
    }
  }

  lemma HeadOfLive(s: State, r: Run)
    requires LiveHeads(s) && Pending(s, r)
    ensures Live(s.queues, r) ==> s.queues[r.sid].entries != [] && r.head == s.queues[r.sid].entries[0]
  {}

  lemma StepConserves(s: State, e: Event, sid: Sid)
    requires LiveHeads(s) && Conserved(s, sid)
    ensures Conserved(Step(s, e), sid)
  {
    hide LiveHeads, Schedule, Remove, RunNow, Resume, Live, Delivered, Undrained, Upto, Thunks;
    if Enabled(s, e) {
      match e {
        case Ask(other) => ScheduleConserves(s, other, sid);
        case Delay(other, ms) =>
        case Drop(other) => RemoveConserves(s, other, sid);
        case Tick(elapsed) =>
        case Fire(r) => HeadOfLive(s, r); RunConserves(s.(timers := s.timers - {r}), r, sid);
        case Microtask => HeadOfLive(s, s.microtasks[0]); RunConserves(s.(microtasks := s.microtasks[1..]), s.microtasks[0], sid);
        case Return => ReturnConserves(s, sid);
      }
    }
  }

  // The closures and the clock.

  /** Nothing is pending for the queue, and its head is not being delivered. */
  ghost predicate Unscheduled(s: State, sid: Sid) {
    && sid in s.queues && AfterDeliver(sid, s.queues[sid].id) !in s.stack
    && sid !in s.scheduled
    && forall r :: Pending(s, r) ==> r.queue != s.queues[sid].id
  }

  /** `Armed` for every other socket. */
  ghost predicate ArmedBut(s: State, but: Sid) {
    forall sid :: sid in s.queues && sid != but && AfterDeliver(sid, s.queues[sid].id) !in s.stack ==>
      s.queues[sid].entries != [] && Pending(s, Run(sid, s.queues[sid].id, s.queues[sid].entries[0]))
  }

  /** What pumping a queue does: it is dropped when empty, and otherwise its head becomes pending. */
  lemma PumpShape(s: State, sid: Sid)
    requires sid in s.queues
    ensures var q := Pump(s, sid);
            && q.made == s.made && q.stack == s.stack && q.now == s.now && q.log == s.log
            && (s.queues[sid].entries == [] ==> q == s.(queues := s.queues - {sid}))
            && (s.queues[sid].entries != [] ==>
                  q.queues == s.queues
                  && forall r :: Pending(q, r) <==> Pending(s, r) || r == Run(sid, s.queues[sid].id, s.queues[sid].entries[0]))
  {
    if s.queues[sid].entries != [] {
      var q := Pump(s, sid);
      var run := Run(sid, s.queues[sid].id, s.queues[sid].entries[0]);
      forall r ensures Pending(q, r) <==> Pending(s, r) || r == run {}
    }
  }

  lemma PumpIds(s: State, sid: Sid)
    requires Ids(s) && Unscheduled(s, sid)
    ensures Ids(Pump(s, sid))
  {
    PumpShape(s, sid);
    hide Pump, Pending;
    if s.queues[sid].entries == [] { DropPending(s, sid); }
  }

  lemma DropPending(s: State, sid: Sid)
    ensures forall r :: Pending(s.(queues := s.queues - {sid}), r) <==> Pending(s, r)
  {}

  lemma PumpHeads(s: State, sid: Sid)
    requires Ids(s) && LiveHeads(s) && Unscheduled(s, sid)
    ensures LiveHeads(Pump(s, sid))
  {
    PumpShape(s, sid);
    hide Pump, Pending;
    if s.queues[sid].entries == [] { DropPending(s, sid); }
  }

  lemma PumpArmed(s: State, sid: Sid)
    requires ArmedBut(s, sid) && Unscheduled(s, sid)
    ensures Armed(Pump(s, sid))
  {
    PumpShape(s, sid);
    hide Pump, Pending;
    if s.queues[sid].entries == [] { DropPending(s, sid); }
  }

  lemma PumpOnce(s: State, sid: Sid)
    requires Unscheduled(s, sid) && PendingOnce(s) && OnTime(s)
    ensures PendingOnce(Pump(s, sid)) && OnTime(Pump(s, sid))
  {
    if s.queues[sid].entries != [] {
      var run := Run(sid, s.queues[sid].id, s.queues[sid].entries[0]);
      assert !Pending(s, run);
    }
  }

  lemma PumpOwned(s: State, sid: Sid)
    requires Unscheduled(s, sid) && TimersOwned(s)
    ensures TimersOwned(Pump(s, sid))
  {
    var q := Pump(s, sid);
    forall r | r in s.timers ensures Live(s.queues, r) ==> r.sid != sid { TimerPending(s, r); }
    hide Pending, DrainOwns, Unscheduled;
    forall r | r in q.timers
      ensures (Live(q.queues, r) && r.sid in q.scheduled && q.scheduled[r.sid] == r) || DrainOwns(q.stack, r)
    {
      if r in s.timers {}
    }
  }

  lemma PumpScheduled(s: State, sid: Sid)
    requires Unscheduled(s, sid) && ScheduledOnly(s)
    ensures ScheduledOnly(Pump(s, sid))
  {
    assert sid !in s.scheduled && sid in s.queues;
    hide Unscheduled;
  }

  lemma TimerPending(s: State, r: Run)
    requires r in s.timers || r in s.microtasks
    ensures Pending(s, r)
  {}

  lemma PumpDead(s: State, sid: Sid)
    requires DrainTimersDead(s)
    ensures DrainTimersDead(Pump(s, sid))
  {}

  lemma PumpSound(s: State, sid: Sid)
    requires Ids(s) && LiveHeads(s) && ArmedBut(s, sid) && Unscheduled(s, sid) && PendingOnce(s) && AtBottom(s.stack)
    requires OnTime(s) && TimersOwned(s) && ScheduledOnly(s) && DrainTimersDead(s)
    ensures Sound(Pump(s, sid))
  {
    hide QueueIds, RunIds, FrameIds, LiveHeads, Armed, ArmedBut, Unscheduled, PendingOnce, OnTime, TimersOwned, AtBottom,
         ScheduledOnly;
    PumpIds(s, sid);
    PumpHeads(s, sid);
    PumpArmed(s, sid);
    PumpOnce(s, sid);
    PumpOwned(s, sid);
    PumpScheduled(s, sid);
    PumpConserves(s, sid, sid);
    PumpDead(s, sid);
  }

  // Scheduling.

  /** The same closures are pending and the same frames open. */
  ghost predicate SamePending(s: State, q: State) {
    q.timers == s.timers && q.microtasks == s.microtasks && q.stack == s.stack
  }

  lemma SameRuns(s: State, q: State)
    requires SamePending(s, q)
    ensures forall r :: Pending(q, r) <==> Pending(s, r)
  {}

  lemma WithEntryIds(s: State, sid: Sid)
    requires Ids(s) && sid in s.queues
    ensures Ids(WithEntry(s, sid))
  {
    SameRuns(s, WithEntry(s, sid));
    hide Pending;
  }

  lemma WithEntryHeads(s: State, sid: Sid)
    requires LiveHeads(s) && sid in s.queues
    ensures LiveHeads(WithEntry(s, sid))
  {
    SameRuns(s, WithEntry(s, sid));
    hide Pending;
  }

  lemma WithEntryArmed(s: State, sid: Sid)
    requires Armed(s) && sid in s.queues
    ensures Armed(WithEntry(s, sid))
  {
    SameRuns(s, WithEntry(s, sid));
    hide Pending;
  }

  lemma WithEntryTimers(s: State, sid: Sid)
    requires TimersOwned(s) && ScheduledOnly(s) && sid in s.queues
    ensures TimersOwned(WithEntry(s, sid)) && ScheduledOnly(WithEntry(s, sid))
  {
    hide DrainOwns;
  }

  lemma WithEntryKeeps(s: State, sid: Sid)
    requires Sound(s) && sid in s.queues
    ensures Sound(WithEntry(s, sid))
  {
    hide Ids, LiveHeads, Armed, TimersOwned, ScheduledOnly;
    WithEntryIds(s, sid);
    WithEntryHeads(s, sid);
    WithEntryArmed(s, sid);
    WithEntryTimers(s, sid);
  }

  lemma WithQueueIds(s: State, sid: Sid)
    requires Ids(s) && sid !in s.queues
    ensures Ids(WithQueue(s, sid))
  {
    SameRuns(s, WithQueue(s, sid));
    hide Pending;
  }

  lemma WithQueueHeads(s: State, sid: Sid)
    requires Ids(s) && LiveHeads(s) && sid !in s.queues
    ensures LiveHeads(WithQueue(s, sid))
  {
    SameRuns(s, WithQueue(s, sid));
    hide Pending, QueueIds, FrameIds;
  }

  lemma WithQueueArmed(s: State, sid: Sid)
    requires Armed(s) && sid !in s.queues
    ensures ArmedBut(WithQueue(s, sid), sid)
  {
    SameRuns(s, WithQueue(s, sid));
    hide Pending;
  }

  lemma WithQueueTimers(s: State, sid: Sid)
    requires Ids(s) && TimersOwned(s) && ScheduledOnly(s) && sid !in s.queues
    ensures TimersOwned(WithQueue(s, sid)) && ScheduledOnly(WithQueue(s, sid))
    ensures Unscheduled(WithQueue(s, sid), sid)
  {
    SameRuns(s, WithQueue(s, sid));
    assert AfterDeliver(sid, s.made) !in s.stack;
    hide Pending, DrainOwns, QueueIds, FrameIds;
  }

  lemma WithQueueReady(s: State, sid: Sid)
    requires Sound(s) && sid !in s.queues
    ensures var q := WithQueue(s, sid);
            && Ids(q) && LiveHeads(q) && ArmedBut(q, sid) && Unscheduled(q, sid) && PendingOnce(q) && AtBottom(q.stack)
            && OnTime(q) && TimersOwned(q) && ScheduledOnly(q) && DrainTimersDead(q)
  {
    hide Ids, LiveHeads, Armed, ArmedBut, TimersOwned, ScheduledOnly, Unscheduled;
    WithQueueIds(s, sid);
    WithQueueHeads(s, sid);
    WithQueueArmed(s, sid);
    WithQueueTimers(s, sid);
  }

  lemma ScheduleSound(s: State, sid: Sid)
    requires Sound(s)
    ensures Sound(Schedule(s, sid))
  {
    ScheduleCases(s, sid);
    hide Schedule, Pump, Sound, Ids, LiveHeads, Armed, ArmedBut, Unscheduled, PendingOnce, AtBottom, OnTime, TimersOwned, ScheduledOnly, DrainTimersDead;
    if sid in s.queues {
      WithEntryKeeps(s, sid);
    } else {
      WithQueueReady(s, sid);
      PumpSound(WithQueue(s, sid), sid);
    }
  }

  // A closure runs.

  /** The closure that is about to run is the only one taken from what is pending. */
  ghost predicate Taken(s: State, p: State, r: Run) {
    && p == s.(timers := p.timers, microtasks := p.microtasks)
    && (forall x :: Pending(p, x) <==> Pending(s, x) && x != r)
  }

  lemma RunPending(s: State, r: Run)
    ensures forall x :: Pending(RunNow(s, r), x) <==> Pending(s, x)
  {}

  lemma RunIdsAfter(s: State, p: State, r: Run)
    requires Ids(s) && Taken(s, p, r) && Pending(s, r) && Live(s.queues, r)
    ensures Ids(RunNow(p, r))
  {
    RunPending(p, r);
    hide Pending;
  }

  lemma RunHeadsAfter(s: State, p: State, r: Run)
    requires LiveHeads(s) && s.stack == [] && Taken(s, p, r) && Pending(s, r) && Live(s.queues, r)
    ensures LiveHeads(RunNow(p, r))
  {
    RunPending(p, r);
    hide Pending;
  }

  lemma RunArmedAfter(s: State, p: State, r: Run)
    requires Armed(s) && s.stack == [] && Taken(s, p, r) && Live(s.queues, r)
    ensures Armed(RunNow(p, r)) && AtBottom(RunNow(p, r).stack)
  {
    RunPending(p, r);
    hide Pending;
  }

  lemma RunOnTime(s: State, p: State, r: Run)
    requires OnTime(s) && r.head.fireAt <= s.now && p == s.(timers := p.timers, microtasks := p.microtasks)
    requires PendingOnce(p) && forall x :: x in p.microtasks ==> x in s.microtasks
    ensures PendingOnce(RunNow(p, r)) && OnTime(RunNow(p, r))
  {}

  lemma RunTimersAfter(s: State, p: State, r: Run)
    requires RunIds(s) && LiveHeads(s) && TimersOwned(s) && ScheduledOnly(s) && s.stack == [] && Pending(s, r) && Live(s.queues, r)
    requires p == s.(timers := p.timers, microtasks := p.microtasks) && p.timers == s.timers - {r}
    ensures TimersOwned(RunNow(p, r)) && ScheduledOnly(RunNow(p, r))
  {
    var q := RunNow(p, r);
    forall x | x in s.timers ensures !DrainOwns(s.stack, x) && Pending(s, x) {}
    hide DrainOwns, Pending, RunIds;
    forall x | x in q.timers ensures Live(q.queues, x) && x.sid in q.scheduled && q.scheduled[x.sid] == x {
      assert Live(s.queues, x) && s.scheduled[x.sid] == x;
      assert x.sid != r.sid by { SameHead(s, x, r); }
    }
  }

  lemma SameHead(s: State, x: Run, r: Run)
    requires LiveHeads(s) && Pending(s, x) && Pending(s, r) && Live(s.queues, x) && Live(s.queues, r) && x != r
    ensures x.sid != r.sid
  {
    hide Pending;
  }

  lemma RunRestAfter(s: State, p: State, r: Run)
    requires Sound(s) && s.stack == [] && Pending(s, r) && Live(s.queues, r) && r.head.fireAt <= s.now
    requires p == s.(timers := p.timers, microtasks := p.microtasks)
    requires PendingOnce(p) && p.timers == s.timers - {r} && (forall x :: x in p.microtasks ==> x in s.microtasks)
    ensures var q := RunNow(p, r); PendingOnce(q) && OnTime(q) && TimersOwned(q) && ScheduledOnly(q) && DrainTimersDead(q)
  {
    hide QueueIds, RunIds, FrameIds, LiveHeads, Armed, OnTime, TimersOwned, ScheduledOnly, AtBottom, Pending, PendingOnce;
    RunOnTime(s, p, r);
    RunTimersAfter(s, p, r);
  }

  lemma DeadRun(s: State, p: State, r: Run)
    requires Sound(s) && s.stack == [] && !Live(s.queues, r)
    requires p == s.(timers := p.timers, microtasks := p.microtasks)
    requires forall x :: Pending(p, x) <==> Pending(s, x) && x != r
    requires PendingOnce(p) && p.timers <= s.timers && s.timers - {r} <= p.timers
    requires forall x :: x in p.microtasks ==> x in s.microtasks
    ensures Sound(p)
  {
    hide DrainOwns, Pending;
  }

  lemma FireSound(s: State, r: Run)
    requires Sound(s) && s.stack == [] && r in s.timers && r.head.fireAt <= s.now
    ensures Sound(RunNow(s.(timers := s.timers - {r}), r))
  {
    var p := s.(timers := s.timers - {r});
    forall x ensures Pending(p, x) <==> Pending(s, x) && x != r {
      assert forall i :: 0 <= i < |s.microtasks| ==> s.microtasks[i] !in s.timers;
    }
    hide QueueIds, RunIds, FrameIds, LiveHeads, Armed, OnTime, TimersOwned, ScheduledOnly, AtBottom, Pending, Live;
    if Live(s.queues, r) {
      TimerPending(s, r);
      assert Taken(s, p, r);
      RunIdsAfter(s, p, r);
      RunHeadsAfter(s, p, r);
      RunArmedAfter(s, p, r);
      RunRestAfter(s, p, r);
    } else {
      DeadRun(s, p, r);
      DeadRunStays(p, r);
    }
  }

  lemma DeadRunStays(s: State, r: Run)
    requires !Live(s.queues, r)
    ensures RunNow(s, r) == s
  {}

  lemma MicrotaskSound(s: State)
    requires Sound(s) && s.stack == [] && s.microtasks != []
    ensures Sound(RunNow(s.(microtasks := s.microtasks[1..]), s.microtasks[0]))
  {
    var r := s.microtasks[0];
    var p := s.(microtasks := s.microtasks[1..]);
    PopMembers(s.microtasks);
    assert forall i :: 0 < i < |s.microtasks| ==> s.microtasks[i] != s.microtasks[0];
    assert r !in s.timers && s.timers - {r} == s.timers && r in s.microtasks;
    forall x ensures Pending(p, x) <==> Pending(s, x) && x != r {}
    assert PendingOnce(p);
    assert r.head.fireAt <= s.now;
    hide QueueIds, RunIds, FrameIds, LiveHeads, Armed, OnTime, TimersOwned, ScheduledOnly, AtBottom, Pending, Live, PendingOnce;
    if Live(s.queues, r) {
      TimerPending(s, r);
      assert Taken(s, p, r);
      RunIdsAfter(s, p, r);
      RunHeadsAfter(s, p, r);
      RunArmedAfter(s, p, r);
      RunRestAfter(s, p, r);
    } else {
      DeadRun(s, p, r);
      DeadRunStays(p, r);
    }
  }

  // Drains.

  /** `TimersOwned`, but for the timer a drain is about to take over or to cancel. */
  ghost predicate OwnedBut(s: State, timer: Option<Run>) {
    forall r :: r in s.timers && Some(r) != timer ==>
      (Live(s.queues, r) && r.sid in s.scheduled && s.scheduled[r.sid] == r) || DrainOwns(s.stack, r)
  }

  ghost predicate DeadTimer(s: State, timer: Option<Run>) {
    timer.Some? ==> timer.value.queue < s.made && forall sid :: sid in s.queues ==> s.queues[sid].id != timer.value.queue
  }

  ghost predicate SoundBut(s: State, timer: Option<Run>) {
    && Ids(s) && LiveHeads(s) && Armed(s) && PendingOnce(s) && AtBottom(s.stack) && OnTime(s)
    && OwnedBut(s, timer) && ScheduledOnly(s) && DrainTimersDead(s) && DeadTimer(s, timer)
  }

  lemma DrainFrames(s: State, sid: Sid, queue: nat, rest: seq<Entry>, timer: Option<Run>)
    requires rest != []
    ensures var q := DrainNext(s, sid, queue, rest, timer);
            && (forall x, n :: AfterDeliver(x, n) in q.stack <==> AfterDeliver(x, n) in s.stack)
            && (forall r :: Pending(q, r) <==> Pending(s, r))
            && (forall f: Frame :: f in q.stack <==> f in s.stack || f == Draining(sid, queue, rest[1..], timer))
  {}

  lemma DrainMore(s: State, sid: Sid, queue: nat, rest: seq<Entry>, timer: Option<Run>)
    requires SoundBut(s, timer) && queue < s.made && rest != []
    ensures var q := DrainNext(s, sid, queue, rest, timer);
            Ids(q) && LiveHeads(q) && Armed(q) && PendingOnce(q) && AtBottom(q.stack)
  {
    DrainFrames(s, sid, queue, rest, timer);
    hide Pending, OwnedBut, OnTime;
  }

  lemma DrainMoreTimers(s: State, sid: Sid, queue: nat, rest: seq<Entry>, timer: Option<Run>)
    requires SoundBut(s, timer) && rest != []
    ensures var q := DrainNext(s, sid, queue, rest, timer);
            OnTime(q) && TimersOwned(q) && ScheduledOnly(q) && DrainTimersDead(q)
  {
    hide Ids, LiveHeads, Armed, PendingOnce, AtBottom;
    var q := DrainNext(s, sid, queue, rest, timer);
    DrainFrames(s, sid, queue, rest, timer);
    forall r | DrainOwns(s.stack, r) ensures DrainOwns(q.stack, r) {
      var f: Frame :| f in s.stack && f.Draining? && f.timer == Some(r);
      assert f in q.stack;
    }
    if timer.Some? {
      assert Draining(sid, queue, rest[1..], timer) in q.stack;
      assert DrainOwns(q.stack, timer.value);
    }
    hide DrainOwns, Pending;
  }

  lemma DrainEnd(s: State, sid: Sid, queue: nat, timer: Option<Run>)
    requires SoundBut(s, timer)
    ensures Sound(DrainNext(s, sid, queue, [], timer))
  {
    hide DrainOwns;
    var q := DrainNext(s, sid, queue, [], timer);
    if timer.Some? {
      assert !Live(s.queues, timer.value);
      assert forall r :: Pending(q, r) ==> Pending(s, r);
      assert forall r :: Pending(s, r) && r != timer.value ==> Pending(q, r);
      hide Pending;
    }
  }

  lemma DrainSound(s: State, sid: Sid, queue: nat, rest: seq<Entry>, timer: Option<Run>)
    requires SoundBut(s, timer) && queue < s.made
    ensures Sound(DrainNext(s, sid, queue, rest, timer))
  {
    hide SoundBut, Ids, LiveHeads, Armed, PendingOnce, AtBottom, OnTime, TimersOwned, ScheduledOnly, DrainTimersDead;
    if rest == [] {
      DrainEnd(s, sid, queue, timer);
    } else {
      DrainMore(s, sid, queue, rest, timer);
      DrainMoreTimers(s, sid, queue, rest, timer);
    }
  }

  /** The socket's queue and its scheduled closure have been detached. */
  function Detached(s: State, sid: Sid): State {
    s.(delays := s.delays - {sid}, queues := s.queues - {sid}, scheduled := s.scheduled - {sid})
  }

  function TimerOf(s: State, sid: Sid): Option<Run> {
    if sid in s.scheduled then Some(s.scheduled[sid]) else None
  }

  lemma DetachedIds(s: State, sid: Sid)
    requires Ids(s) && LiveHeads(s) && Armed(s) && sid in s.queues
    ensures Ids(Detached(s, sid)) && LiveHeads(Detached(s, sid)) && Armed(Detached(s, sid))
  {
    SameRuns(s, Detached(s, sid));
    hide Pending;
  }

  lemma DetachedTimers(s: State, sid: Sid)
    requires Ids(s) && TimersOwned(s) && ScheduledOnly(s) && DrainTimersDead(s) && sid in s.queues
    ensures var q := Detached(s, sid);
            OwnedBut(q, TimerOf(s, sid)) && ScheduledOnly(q) && DrainTimersDead(q) && DeadTimer(q, TimerOf(s, sid))
  {
    hide DrainOwns, RunIds, FrameIds;
  }

  lemma QueueMade(s: State, sid: Sid)
    requires Ids(s) && sid in s.queues
    ensures s.queues[sid].id < s.made
  {}

  lemma RemoveSound(s: State, sid: Sid)
    requires Sound(s)
    ensures Sound(Remove(s, sid))
  {
    if sid in s.queues {
      hide Ids, LiveHeads, Armed, TimersOwned, ScheduledOnly, DrainTimersDead, OwnedBut, DeadTimer, DrainNext;
      QueueMade(s, sid);
      DetachedIds(s, sid);
      DetachedTimers(s, sid);
      DrainSound(Detached(s, sid), sid, s.queues[sid].id, s.queues[sid].entries, TimerOf(s, sid));
    } else {
      DelaysSound(s, s.delays - {sid});
    }
  }

  lemma DelaysIds(s: State, delays: map<Sid, int>)
    requires Ids(s) && LiveHeads(s) && Armed(s)
    ensures var q := s.(delays := delays); Ids(q) && LiveHeads(q) && Armed(q)
  {
    SameRuns(s, s.(delays := delays));
    hide Pending;
  }

  lemma DelaysSound(s: State, delays: map<Sid, int>)
    requires Sound(s)
    ensures Sound(s.(delays := delays))
  {
    DelaysIds(s, delays);
    hide DrainOwns, Ids, LiveHeads, Armed;
  }

  lemma TickSound(s: State, elapsed: nat)
    requires Sound(s)
    ensures Sound(s.(now := s.now + elapsed))
  {
    SameRuns(s, s.(now := s.now + elapsed));
    hide Pending, DrainOwns;
  }

  // Frames end.

  lemma OnlyFrame(s: State)
    requires AtBottom(s.stack) && s.stack != [] && s.stack[0].AfterDeliver?
    ensures s.stack == [s.stack[0]] && s.stack[1..] == []
  {}

  lemma AfterDeliverReady(s: State, sid: Sid, queue: nat)
    requires Sound(s) && s.stack == [AfterDeliver(sid, queue)] && sid in s.queues && s.queues[sid].id == queue
    ensures var p := s.(stack := []);
            Ids(p) && LiveHeads(p) && ArmedBut(p, sid) && Unscheduled(p, sid) && ScheduledOnly(p) && TimersOwned(p)
            && DrainTimersDead(p)
  {
    var p := s.(stack := []);
    assert AfterDeliver(sid, queue) in s.stack;
    forall r ensures Pending(p, r) <==> Pending(s, r) {}
    forall r | r in s.timers ensures Pending(s, r) && !DrainOwns(s.stack, r) {}
    hide Pending, DrainOwns;
  }

  lemma AfterDeliverStale(s: State, sid: Sid, queue: nat)
    requires Sound(s) && s.stack == [AfterDeliver(sid, queue)] && !(sid in s.queues && s.queues[sid].id == queue)
    ensures Sound(s.(stack := []))
  {
    var p := s.(stack := []);
    forall r ensures Pending(p, r) <==> Pending(s, r) {}
    forall r | r in s.timers ensures !DrainOwns(s.stack, r) {}
    hide Pending, DrainOwns;
  }

  lemma AfterDeliverSound(s: State, sid: Sid, queue: nat)
    requires Sound(s) && s.stack != [] && s.stack[0] == AfterDeliver(sid, queue)
    ensures Sound(Resume(s.(stack := s.stack[1..]), s.stack[0]))
  {
    OnlyFrame(s);
    if sid in s.queues && s.queues[sid].id == queue {
      AfterDeliverReady(s, sid, queue);
      hide Ids, LiveHeads, ArmedBut, Unscheduled, ScheduledOnly, TimersOwned, DrainTimersDead, Pump;
      PumpSound(s.(stack := []), sid);
    } else {
      AfterDeliverStale(s, sid, queue);
    }
  }

  lemma DrainingReady(s: State, sid: Sid, queue: nat, rest: seq<Entry>, timer: Option<Run>)
    requires Sound(s) && s.stack != [] && s.stack[0] == Draining(sid, queue, rest, timer)
    ensures SoundBut(s.(stack := s.stack[1..]), timer) && queue < s.made
  {
    var p := s.(stack := s.stack[1..]);
    PopMembers(s.stack);
    assert s.stack[0] in s.stack;
    forall r ensures Pending(p, r) <==> Pending(s, r) {}
    forall r | DrainOwns(s.stack, r) && Some(r) != timer ensures DrainOwns(p.stack, r) {
      var f: Frame :| f in s.stack && f.Draining? && f.timer == Some(r);
      assert f in p.stack;
    }
    hide Pending, DrainOwns;
  }

  lemma ReturnSound(s: State)
    requires Sound(s) && s.stack != []
    ensures Sound(Resume(s.(stack := s.stack[1..]), s.stack[0]))
  {
    hide Sound, SoundBut, DrainNext;
    match s.stack[0] {
      case AfterDeliver(sid, queue) => AfterDeliverSound(s, sid, queue);
      case Draining(sid, queue, rest, timer) =>
        DrainingReady(s, sid, queue, rest, timer);
        DrainSound(s.(stack := s.stack[1..]), sid, queue, rest, timer);
    }
  }

  lemma StepSound(s: State, e: Event)
    requires Sound(s)
    ensures Sound(Step(s, e))
  {
    hide Sound, Schedule, Remove, RunNow, Resume;
    if Enabled(s, e) {
      match e {
        case Ask(sid) => ScheduleSound(s, sid);
        case Delay(sid, ms) => if Step(s, e) != s { DelaysSound(s, Step(s, e).delays); }
        case Drop(sid) => RemoveSound(s, sid);
        case Tick(elapsed) => TickSound(s, elapsed);
        case Fire(r) => FireSound(s, r);
        case Microtask => MicrotaskSound(s);
        case Return => ReturnSound(s);
      }
    }
  }

  lemma SoundHeads(s: State)
    requires Sound(s)
    ensures LiveHeads(s)
  {}

  lemma {:induction false} PlaySound(s: State, events: seq<Event>, sid: Sid)
    requires Sound(s) && Conserved(s, sid)
    ensures Sound(Play(s, events)) && Conserved(Play(s, events), sid)
    decreases |events|
  {
    hide Sound, Conserved, Step;
    if events != [] {
      SoundHeads(s);
      StepSound(s, events[0]);
      StepConserves(s, events[0], sid);
      PlaySound(Step(s, events[0]), events[1..], sid);
    }
  }

  // Whole runs.

  lemma PlayedFromStart(events: seq<Event>, sid: Sid)
    ensures Sound(Play(START, events)) && Conserved(Play(START, events), sid)
  {
    assert Conserved(START, sid);
    PlaySound(START, events, sid);
  }

  /**
    Whatever the delays, timers and re-entrant calls do: what has been delivered for a
    socket, then what a drain has still to deliver, then what is queued, are together
    the scheduled deliveries, in the order they were scheduled.
   */
  lemma StreamsAreConserved(events: seq<Event>, sid: Sid)
    ensures var s := Play(START, events);
            Delivered(s.log, sid) + Undrained(s.stack, sid) + Queued(s, sid) == Upto(Asked(s, sid))
  {
    PlayedFromStart(events, sid);
  }

  /**
    A delivery that no drain forced happens no earlier than it was due, and no earlier
    than any earlier such delivery of the adapter was.
   */
  lemma NeverEarly(events: seq<Event>, i: nat, j: nat)
    requires var s := Play(START, events); i <= j < |s.log| && !s.log[i].drained && !s.log[j].drained
    ensures var s := Play(START, events); s.log[i].fireAt <= s.log[j].at
  {
    hide Play;
    PlayedFromStart(events, 0);
    hide Ids, LiveHeads, Armed, TimersOwned, ScheduledOnly, DrainTimersDead;
  }

  /** A closure whose queue has been removed or replaced delivers nothing. */
  lemma DetachedNeverDelivers(s: State, r: Run)
    requires !Live(s.queues, r)
    ensures Enabled(s, Fire(r)) ==> Step(s, Fire(r)) == s.(timers := s.timers - {r})
    ensures Enabled(s, Microtask) && s.microtasks[0] == r ==>
              Step(s, Microtask) == s.(microtasks := s.microtasks[1..])
  {
    DeadRunStays(s.(timers := s.timers - {r}), r);
    if s.microtasks != [] { DeadRunStays(s.(microtasks := s.microtasks[1..]), r); }
    hide RunNow;
  }

  /** Between callbacks every queue is waiting for exactly its head: in a timer or in a microtask. */
  lemma OnlyHeadsAreScheduled(events: seq<Event>, sid: Sid)
    requires var s := Play(START, events); s.stack == [] && sid in s.queues
    ensures var s := Play(START, events);
            && s.queues[sid].entries != []
            && (var head := Run(sid, s.queues[sid].id, s.queues[sid].entries[0]);
                && (head in s.timers <==> head !in s.microtasks)
                && forall r :: (r in s.timers || r in s.microtasks) && r.queue == s.queues[sid].id ==> r == head)
  {
    hide Play;
    PlayedFromStart(events, sid);
    var s := Play(START, events);
    var q := s.queues[sid];
    assert q.entries != [] && Pending(s, Run(sid, q.id, q.entries[0]));
    forall r | (r in s.timers || r in s.microtasks) && r.queue == q.id ensures r == Run(sid, q.id, q.entries[0]) {
      assert Pending(s, r) && Live(s.queues, r);
    }
    hide TimersOwned, ScheduledOnly, DrainTimersDead, OnTime;
  }

  /** Between callbacks no timer is left behind by a removal. */
  lemma RemovalLeavesNoTimer(events: seq<Event>, r: Run)
    requires var s := Play(START, events); s.stack == [] && r in s.timers
    ensures Live(Play(START, events).queues, r)
  {
    hide Play;
    PlayedFromStart(events, 0);
    var s := Play(START, events);
    assert !DrainOwns(s.stack, r);
    hide Ids, LiveHeads, Armed, OnTime, ScheduledOnly, DrainTimersDead;
  }
}
