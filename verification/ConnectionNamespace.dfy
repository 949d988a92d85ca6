/** A namespace's own queues, changed in place as the source changes them. */
module ConnectionNamespace {
  import Q = ConnectionQueue

  class Namespace {
    var ready: seq<Q.Socket>
    var waiters: seq<Q.Observer>
    var closed: bool
    ghost var admitted: seq<Q.Socket>
    ghost var asked: seq<Q.Observer>
    ghost var served: seq<Q.Pair>
    ghost var rejected: seq<Q.Observer>

    ghost function Now(): Q.Queue
      reads this
    {
      Q.Queue(ready, waiters, closed, admitted, asked, served, rejected)
    }

    constructor (isClosed: bool)
      ensures Now() == Q.EMPTY.(closed := isClosed)
    {
      ready, waiters, closed := [], [], isClosed;
      admitted, asked, served, rejected := [], [], [], [];
    }

    method NextConnection(o: Q.Observer)
      modifies this
      ensures Now() == Q.Next(old(Now()), o)
    {
      asked := asked + [o];
      if ready != [] {
        served := served + [Q.Pair(ready[0], o)];
        ready := ready[1..];
        return;
      }
      waiters := waiters + [o];
    }

    method Offer(s: Q.Socket)
      modifies this
      ensures Now() == Q.Offer(old(Now()), s)
    {
      admitted := admitted + [s];
      if waiters != [] {
        served := served + [Q.Pair(s, waiters[0])];
        waiters := waiters[1..];
      } else {
        ready := ready + [s];
      }
    }

    method DiscardReady(s: Q.Socket)
      modifies this
      ensures Now() == Q.Discard(old(Now()), s)
    {
      var i := Q.IndexOf(ready, s);
      if i == |ready| { return; }
      ghost var k := |served| + i;
      ready := ready[..i] + ready[i + 1..];
      if k < |admitted| { admitted := admitted[..k] + admitted[k + 1..]; }
    }

    /** The loop over `waiters.splice(0)`. */
    method Close()
      modifies this
      ensures Now() == Q.Close(old(Now()))
    {
      closed := true;
      ready := [];
      var removed := waiters;
      waiters := [];
      var i := 0;
      while i < |removed|
        invariant i <= |removed|
        invariant Now() == old(Now()).(closed := true, ready := [], waiters := [], rejected := old(rejected) + removed[..i])
      {
        rejected := rejected + [removed[i]];
        i := i + 1;
      }
      assert removed[..i] == removed;
    }
  }
}
