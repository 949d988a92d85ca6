/** The outbox, changed in place as the source does. */
module ClientOutboxObject {
  import O = ClientOutbox

  class ClientSocket {
    var connected: bool
    var timed: seq<O.Timed>
    var armed: set<O.Call>
    var sendBuffer: seq<O.Call>
    var pendingAcks: seq<O.Call>
    var stack: seq<O.Frame>
    ghost var dropped: set<O.Call>
    ghost var lost: set<O.Call>
    ghost var sent: seq<O.Sent>
    ghost var ran: seq<O.Ran>

    ghost function Now(): O.State
      reads this
    {
      O.State(connected, timed, armed, sendBuffer, pendingAcks, stack, dropped, lost, sent, ran)
    }

    constructor ()
      ensures Now() == O.IDLE
    {
      connected, timed, armed, sendBuffer, pendingAcks, stack := false, [], {}, [], [], [];
      dropped, lost, sent, ran := {}, {}, [], [];
    }

    predicate IsSettled(k: O.Call)
      reads this`timed
    {
      k < |timed| && timed[k] == O.Timed.Settled
    }

    /** `Set.delete`, and `indexOf` followed by `splice`. */
    method Remove(xs: seq<O.Call>, k: O.Call) returns (ys: seq<O.Call>)
      ensures ys == O.Without(xs, k)
    {
      ys := xs;
      var i := 0;
      while i < |xs|
        invariant i <= |xs| && ys == xs && O.Without(xs, k) == xs[..i] + O.Without(xs[i..], k)
      {
        if xs[i] == k { return xs[..i] + xs[i + 1..]; }
        assert xs[..i + 1] == xs[..i] + [xs[i]] && xs[i..][1..] == xs[i + 1..];
        i := i + 1;
      }
    }

    method Settle(k: O.Call, how: O.How)
      requires k < |timed|
      modifies this`timed, this`armed, this`pendingAcks, this`sendBuffer, this`ran
      ensures Now() == O.Settle(old(Now()), k, how)
    {
      timed := timed[k := O.Timed.Settled];
      armed := armed - {k};
      pendingAcks := Remove(pendingAcks, k);
      sendBuffer := Remove(sendBuffer, k);
      ran := ran + [O.Ran(k, how)];
    }

    method TrackTimedCallback(k: O.Call)
      modifies this`pendingAcks
      ensures Now() == O.Track(old(Now()), k)
    {
      if k < |timed| && timed[k] != O.Timed.Untimed && k !in pendingAcks { pendingAcks := pendingAcks + [k]; }
    }

    method Emit(withTimeout: bool, isVolatile: bool)
      modifies this
      ensures Now() == O.Emit(old(Now()), withTimeout, isVolatile)
    {
      var k := |timed|;
      timed := timed + [if withTimeout then O.Timed.Open else O.Timed.Untimed];
      if withTimeout { armed := armed + {k}; }
      if isVolatile && !connected {
        dropped := dropped + {k};
        return;
      }
      if !connected {
        sendBuffer := sendBuffer + [k];
        return;
      }
      TrackTimedCallback(k);
      stack := [O.Observing(k)] + stack;
    }

    method Send(k: O.Call, buffered: bool)
      modifies this`sent
      ensures Now() == O.Send(old(Now()), k, buffered)
    {
      sent := sent + [O.Sent(k, buffered, IsSettled(k))];
    }

    method SendDirect(k: O.Call, encodes: bool)
      modifies this`sent, this`lost
      ensures Now() == O.SendDirect(old(Now()), k, encodes)
    {
      if !encodes {
        lost := lost + {k};
        return;
      }
      Send(k, false);
    }

    /** The loop of the flush, up to the next packet whose observers have to run. */
    method Flush(packets: seq<O.Call>)
      modifies this`pendingAcks, this`stack
      ensures Now() == O.FlushFrom(old(Now()), packets)
    {
      var i := 0;
      while i < |packets|
        invariant i <= |packets| && Now() == old(Now())
        invariant O.FlushFrom(old(Now()), packets) == O.FlushFrom(old(Now()), packets[i..])
      {
        assert packets[i..][0] == packets[i] && packets[i..][1..] == packets[i + 1..];
        if !IsSettled(packets[i]) {
          TrackTimedCallback(packets[i]);
          stack := [O.Flushing(packets[i..])] + stack;
          return;
        }
        i := i + 1;
      }
    }

    method CompleteConnection()
      modifies this
      ensures Now() == O.Connect(old(Now()))
    {
      connected := true;
      var buffered := sendBuffer;
      sendBuffer := [];
      Flush(buffered);
    }

    /** `buffered.slice(index).filter(…)` */
    method Unflushed(packets: seq<O.Call>) returns (unflushed: seq<O.Call>)
      ensures unflushed == O.Unsettled(Now(), packets)
    {
      unflushed := [];
      var i := 0;
      while i < |packets|
        invariant i <= |packets| && O.Unsettled(Now(), packets) == unflushed + O.Unsettled(Now(), packets[i..])
      {
        assert packets[i..][0] == packets[i] && packets[i..][1..] == packets[i + 1..];
        if !IsSettled(packets[i]) { unflushed := unflushed + [packets[i]]; }
        i := i + 1;
      }
    }

    method ContinueFlush(packets: seq<O.Call>, encodes: bool)
      modifies this
      ensures Now() == O.FlushNext(old(Now()), packets, encodes)
    {
      if packets == [] { return; }
      if !connected {
        var unflushed := Unflushed(packets);
        sendBuffer := unflushed + sendBuffer;
        return;
      }
      if !encodes {
        lost := lost + set k | k in packets;
        return;
      }
      Send(packets[0], true);
      Flush(packets[1..]);
    }

    method RejectNext(rest: seq<O.Call>)
      modifies this
      ensures Now() == O.RejectNext(old(Now()), rest)
    {
      if rest == [] || rest[0] >= |timed| { return; }
      Settle(rest[0], O.Disconnected);
      stack := [O.Rejecting(rest[1..])] + stack;
    }

    method MarkDisconnected()
      modifies this
      ensures Now() == O.Disconnect(old(Now()))
    {
      if !connected { return; }
      connected := false;
      var rejecters := pendingAcks;
      pendingAcks := [];
      RejectNext(rejecters);
    }

    method Answer(k: O.Call)
      requires k < |timed|
      modifies this
      ensures Now() == if O.IsSettled(old(Now()), k) then old(Now()) else O.Settle(old(Now()), k, O.Answered)
    {
      if !IsSettled(k) { Settle(k, O.Answered); }
    }

    method Expire(k: O.Call)
      requires k < |timed|
      modifies this
      ensures Now() == O.Settle(old(Now()), k, O.TimedOut)
    {
      Settle(k, O.TimedOut);
    }

    method Return(encodes: bool)
      requires stack != []
      modifies this
      ensures Now() == O.Step(old(Now()), O.Return(encodes))
    {
      var f := stack[0];
      stack := stack[1..];
      match f {
        case Observing(k) => SendDirect(k, encodes);
        case Flushing(packets) => ContinueFlush(packets, encodes);
        case Rejecting(rest) => RejectNext(rest);
      }
    }
  }
}
