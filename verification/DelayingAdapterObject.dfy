/** The delaying adapter's own maps, changed in place as the source changes them. */
module DelayingAdapterObject {
  import opened Common
  import D = DelayingAdapter

  class DelayingAdapter {
    var delays: map<D.Sid, int>
    var queues: map<D.Sid, D.Queue>
    var scheduled: map<D.Sid, D.Run>
    var timers: set<D.Run>
    var microtasks: seq<D.Run>
    var now: int
    var stack: seq<D.Frame>
    var made: nat
    var asked: map<D.Sid, nat>
    ghost var log: seq<D.Delivery>

    ghost function Now(): D.State
      reads this
    {
      D.State(delays, queues, scheduled, timers, microtasks, now, stack, made, asked, log)
    }

    constructor ()
      ensures Now() == D.START
    {
      delays, queues, scheduled, timers, microtasks := map[], map[], map[], {}, [];
      now, stack, made, asked, log := 0, [], 0, map[], [];
    }

    method SetDelay(sid: D.Sid, ms: Option<int>)
      modifies this`delays
      ensures Now() == D.SetDelay(old(Now()), sid, ms)
    {
      if ms == None { return; }
      if ms.value <= 0 { delays := delays - {sid}; } else { delays := delays[sid := ms.value]; }
    }

    method ScheduleDelivery(sid: D.Sid)
      modifies this
      ensures Now() == D.Schedule(old(Now()), sid)
    {
      var thunk := if sid in asked then asked[sid] else 0;
      var fireAt := now + (if sid in delays then delays[sid] else 0);
      asked := asked[sid := thunk + 1];
      if sid in queues {
        queues := queues[sid := queues[sid].(entries := queues[sid].entries + [D.Entry(thunk, fireAt)])];
        return;
      }
      queues := queues[sid := D.Queue(made, [D.Entry(thunk, fireAt)])];
      made := made + 1;
      Pump(sid);
    }

    method Pump(sid: D.Sid)
      modifies this`queues, this`microtasks, this`scheduled, this`timers
      ensures Now() == D.Pump(old(Now()), sid)
    {
      if sid !in queues { return; }
      var queue := queues[sid];
      if queue.entries == [] {
        queues := queues - {sid};
        return;
      }
      var head := queue.entries[0];
      var run := D.Run(sid, queue.id, head);
      if head.fireAt - now <= 0 {
        microtasks := microtasks + [run];
      } else {
        scheduled := scheduled[sid := run];
        timers := timers + {run};
      }
    }

    /** The closure, up to the call of the head's delivery. */
    method Deliver(r: D.Run)
      modifies this`scheduled, this`queues, this`log, this`stack
      ensures Now() == D.RunNow(old(Now()), r)
    {
      if r.sid !in queues || queues[r.sid].id != r.queue { return; }
      scheduled := scheduled - {r.sid};
      var entries := queues[r.sid].entries;
      queues := queues[r.sid := queues[r.sid].(entries := if entries == [] then [] else entries[1..])];
      log := log + [D.Delivery(r.sid, r.head.thunk, r.queue, r.head.fireAt, now, false)];
      stack := [D.AfterDeliver(r.sid, r.queue)] + stack;
    }

    /** One turn of the loop in `removeSocket`; after the last one the timer is cancelled. */
    method DrainNext(sid: D.Sid, queue: nat, rest: seq<D.Entry>, timer: Option<D.Run>)
      modifies this`log, this`stack, this`timers
      ensures Now() == D.DrainNext(old(Now()), sid, queue, rest, timer)
    {
      if rest == [] {
        if timer.Some? { timers := timers - {timer.value}; }
        return;
      }
      log := log + [D.Delivery(sid, rest[0].thunk, queue, rest[0].fireAt, now, true)];
      stack := [D.Draining(sid, queue, rest[1..], timer)] + stack;
    }

    method RemoveSocket(sid: D.Sid)
      modifies this
      ensures Now() == D.Remove(old(Now()), sid)
    {
      delays := delays - {sid};
      if sid !in queues { return; }
      var queue := queues[sid];
      queues := queues - {sid};
      var timer := if sid in scheduled then Some(scheduled[sid]) else None;
      scheduled := scheduled - {sid};
      DrainNext(sid, queue.id, queue.entries, timer);
    }

    /** A delivery has returned. */
    method Return()
      requires stack != []
      modifies this
      ensures Now() == D.Step(old(Now()), D.Return)
    {
      var f := stack[0];
      stack := stack[1..];
      match f {
        case AfterDeliver(sid, queue) => if sid in queues && queues[sid].id == queue { Pump(sid); }
        case Draining(sid, queue, rest, timer) => DrainNext(sid, queue, rest, timer);
      }
    }

    method Fire(r: D.Run)
      requires stack == [] && r in timers && r.head.fireAt <= now
      modifies this
      ensures Now() == D.Step(old(Now()), D.Fire(r))
    {
      timers := timers - {r};
      Deliver(r);
    }

    method Microtask()
      requires stack == [] && microtasks != []
      modifies this
      ensures Now() == D.Step(old(Now()), D.Microtask)
    {
      var r := microtasks[0];
      microtasks := microtasks[1..];
      Deliver(r);
    }
  }
}
