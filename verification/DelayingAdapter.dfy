/**
  The delaying adapter: a queue of deliveries per socket, of which only the head is
  scheduled. Deliveries call application code, so what follows one is a frame on
  `stack`; timers fire and microtasks run only when no frame is left.
 */
module DelayingAdapter {
  import opened Common

  type Sid = nat
  type Thunk = nat

  datatype Entry = Entry(thunk: Thunk, fireAt: int)

  /** A queue object; the map may hold another one for the same socket later. */
  datatype Queue = Queue(id: nat, entries: seq<Entry>)

  /** The closure that delivers `head` if the socket still has the same queue. */
  datatype Run = Run(sid: Sid, queue: nat, head: Entry)

  datatype Frame =
    | AfterDeliver(sid: Sid, queue: nat)
    | Draining(sid: Sid, queue: nat, rest: seq<Entry>, timer: Option<Run>)

  datatype Delivery = Delivery(sid: Sid, thunk: Thunk, queue: nat, fireAt: int, at: int, drained: bool)

  datatype State = State(
    delays: map<Sid, int>,
    queues: map<Sid, Queue>,
    scheduled: map<Sid, Run>,
    // The injected timer and the microtask queue.
    timers: set<Run>,
    microtasks: seq<Run>,
    now: int,
    stack: seq<Frame>,
    // Queue objects are numbered, and so are the thunks of each socket; what was delivered.
    made: nat,
    asked: map<Sid, nat>,
    log: seq<Delivery>)

  const START := State(map[], map[], map[], {}, [], 0, [], 0, map[], [])

  /** How many deliveries have been scheduled for the socket. */
  function Asked(s: State, sid: Sid): nat {
    if sid in s.asked then s.asked[sid] else 0
  }

  /** `setDelay`; `None` stands for a number that is not finite. */
  function SetDelay(s: State, sid: Sid, ms: Option<int>): State {
    match ms
    case None => s
    case Some(d) => if d <= 0 then s.(delays := s.delays - {sid}) else s.(delays := s.delays[sid := d])
  }

  function Pump(s: State, sid: Sid): State {
    if sid !in s.queues then s
    else if s.queues[sid].entries == [] then s.(queues := s.queues - {sid})
    else
      var run := Run(sid, s.queues[sid].id, s.queues[sid].entries[0]);
      if run.head.fireAt <= s.now then s.(microtasks := s.microtasks + [run])
      else s.(scheduled := s.scheduled[sid := run], timers := s.timers + {run})
  }

  /** `scheduleDelivery` of the next thunk of this socket. */
  function Schedule(s: State, sid: Sid): State {
    var entry := Entry(Asked(s, sid), s.now + (if sid in s.delays then s.delays[sid] else 0));
    var p := s.(asked := s.asked[sid := Asked(s, sid) + 1]);
    if sid in s.queues then p.(queues := s.queues[sid := s.queues[sid].(entries := s.queues[sid].entries + [entry])])
    else Pump(p.(queues := s.queues[sid := Queue(s.made, [entry])], made := s.made + 1), sid)
  }

  function Shifted(entries: seq<Entry>): seq<Entry> {
    if entries == [] then [] else entries[1..]
  }

  /** The scheduled closure up to the delivery. */
  function RunNow(s: State, r: Run): State {
    if r.sid !in s.queues || s.queues[r.sid].id != r.queue then s
    else s.(
      scheduled := s.scheduled - {r.sid},
      queues := s.queues[r.sid := s.queues[r.sid].(entries := Shifted(s.queues[r.sid].entries))],
      log := s.log + [Delivery(r.sid, r.head.thunk, r.queue, r.head.fireAt, s.now, false)],
      stack := [AfterDeliver(r.sid, r.queue)] + s.stack)
  }

  /** The next step of the drain: deliver one more, or cancel the old timer at the end. */
  function DrainNext(s: State, sid: Sid, queue: nat, rest: seq<Entry>, timer: Option<Run>): State {
    if rest == [] then (if timer.Some? then s.(timers := s.timers - {timer.value}) else s)
    else s.(
      log := s.log + [Delivery(sid, rest[0].thunk, queue, rest[0].fireAt, s.now, true)],
      stack := [Draining(sid, queue, rest[1..], timer)] + s.stack)
  }

  /** `removeSocket` up to its first delivery. */
  function Remove(s: State, sid: Sid): State {
    var p := s.(delays := s.delays - {sid});
    if sid !in s.queues then p
    else
      DrainNext(p.(queues := s.queues - {sid}, scheduled := s.scheduled - {sid}),
                sid, s.queues[sid].id, s.queues[sid].entries,
                if sid in s.scheduled then Some(s.scheduled[sid]) else None)
  }

  function Resume(s: State, f: Frame): State {
    match f
    case AfterDeliver(sid, queue) =>
      if sid in s.queues && s.queues[sid].id == queue then Pump(s, sid) else s
    case Draining(sid, queue, rest, timer) => DrainNext(s, sid, queue, rest, timer)
  }

  datatype Event =
    | Ask(sid: Sid)
    | Delay(sid: Sid, ms: Option<int>)
    | Drop(sid: Sid)
    | Tick(elapsed: nat)
    | Fire(run: Run)
    | Microtask
    | Return

  predicate InDrain(stack: seq<Frame>, sid: Sid) {
    exists i :: 0 <= i < |stack| && stack[i].Draining? && stack[i].sid == sid
  }

  /**
    Timers fire no earlier than they were set for, and only while they are armed; the
    runtime removes a socket once, so not from inside its own drain.
   */
  predicate Enabled(s: State, e: Event) {
    match e
    case Ask(_) => true
    case Delay(_, _) => true
    case Drop(sid) => !InDrain(s.stack, sid)
    case Tick(_) => true
    case Fire(r) => s.stack == [] && r in s.timers && r.head.fireAt <= s.now
    case Microtask => s.stack == [] && s.microtasks != []
    case Return => s.stack != []
  }

  function Step(s: State, e: Event): State {
    if !Enabled(s, e) then s
    else
      match e
      case Ask(sid) => Schedule(s, sid)
      case Delay(sid, ms) => SetDelay(s, sid, ms)
      case Drop(sid) => Remove(s, sid)
      case Tick(elapsed) => s.(now := s.now + elapsed)
      case Fire(r) => RunNow(s.(timers := s.timers - {r}), r)
      case Microtask => RunNow(s.(microtasks := s.microtasks[1..]), s.microtasks[0])
      case Return => Resume(s.(stack := s.stack[1..]), s.stack[0])
  }

  function Play(s: State, events: seq<Event>): State
    decreases |events|
  {
    if events == [] then s else Play(Step(s, events[0]), events[1..])
  }
}
