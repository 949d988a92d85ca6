/** Pairing admitted sockets with `nextConnection` calls. */
module ConnectionQueue {
  // The two queues of a namespace, and the observers a server keeps for dynamic namespaces
  // that do not exist yet.

  type Socket = nat
  type Observer = nat
  type Name = nat

  datatype Pair = Pair(socket: Socket, observer: Observer)

  datatype Queue = Queue(
    ready: seq<Socket>,
    waiters: seq<Observer>,
    closed: bool,
    // History.
    admitted: seq<Socket>,     // in order, without those discarded while they were ready
    asked: seq<Observer>,      // in order
    served: seq<Pair>,
    rejected: seq<Observer>)

  const EMPTY := Queue([], [], false, [], [], [], [])

  /** `Namespace.nextConnection` */
  function Next(q: Queue, o: Observer): Queue {
    if q.ready != [] then
      q.(ready := q.ready[1..], served := q.served + [Pair(q.ready[0], o)], asked := q.asked + [o])
    else q.(waiters := q.waiters + [o], asked := q.asked + [o])
  }

  /** `offer` */
  function Offer(q: Queue, s: Socket): Queue {
    if q.waiters != [] then
      q.(waiters := q.waiters[1..], served := q.served + [Pair(s, q.waiters[0])], admitted := q.admitted + [s])
    else q.(ready := q.ready + [s], admitted := q.admitted + [s])
  }

  /** The first index of `s`, or the length. */
  function IndexOf(xs: seq<Socket>, s: Socket): (i: nat)
    ensures i <= |xs| && (i < |xs| ==> xs[i] == s)
  {
    if xs == [] then 0 else if xs[0] == s then 0 else 1 + IndexOf(xs[1..], s)
  }

  /** `discardReady` */
  function Discard(q: Queue, s: Socket): Queue {
    var i := IndexOf(q.ready, s);
    if i == |q.ready| then q
    else
      var k := |q.served| + i;
      q.(ready := q.ready[..i] + q.ready[i + 1..],
         admitted := if k < |q.admitted| then q.admitted[..k] + q.admitted[k + 1..] else q.admitted)
  }

  /** `Namespace.close` */
  function Close(q: Queue): Queue {
    q.(closed := true, ready := [], waiters := [], rejected := q.rejected + q.waiters)
  }

  function Sockets(pairs: seq<Pair>): (s: seq<Socket>)
    ensures |s| == |pairs|
  {
    seq(|pairs|, i requires 0 <= i < |pairs| => pairs[i].socket)
  }

  function Observers(pairs: seq<Pair>): (s: seq<Observer>)
    ensures |s| == |pairs|
  {
    seq(|pairs|, i requires 0 <= i < |pairs| => pairs[i].observer)
  }

  /** Sockets and observers are matched first to first, and only one side can be waiting. */
  ghost predicate Matched(q: Queue) {
    && (q.ready == [] || q.waiters == [])
    && (if q.closed then Sockets(q.served) <= q.admitted && q.ready == [] && q.waiters == []
        else q.admitted == Sockets(q.served) + q.ready && q.rejected == [])
    && q.asked == Observers(q.served) + q.waiters + q.rejected
  }

  lemma ServedOne(pairs: seq<Pair>, s: Socket, o: Observer)
    ensures Sockets(pairs + [Pair(s, o)]) == Sockets(pairs) + [s]
    ensures Observers(pairs + [Pair(s, o)]) == Observers(pairs) + [o]
  {}

  lemma NextMatched(q: Queue, o: Observer)
    requires Matched(q) && !q.closed
    ensures Matched(Next(q, o))
  {
    if q.ready != [] { ServedOne(q.served, q.ready[0], o); }
  }

  lemma OfferMatched(q: Queue, s: Socket)
    requires Matched(q) && !q.closed
    ensures Matched(Offer(q, s))
  {
    if q.waiters != [] { ServedOne(q.served, s, q.waiters[0]); }
  }

  lemma DiscardMatched(q: Queue, s: Socket)
    requires Matched(q) && !q.closed
    ensures Matched(Discard(q, s))
  {
    var i := IndexOf(q.ready, s);
    if i < |q.ready| {
      var k := |q.served| + i;
      assert q.admitted[..k] == Sockets(q.served) + q.ready[..i];
      assert q.admitted[k + 1..] == q.ready[i + 1..];
    }
  }

  lemma CloseMatched(q: Queue)
    requires Matched(q) && !q.closed
    ensures Matched(Close(q))
  {}

  /** The `i`-th socket that stayed goes to the `i`-th call, whatever came first. */
  lemma FirstToFirst(q: Queue, i: nat)
    requires Matched(q) && i < |q.served|
    ensures i < |q.admitted| && i < |q.asked| && q.served[i] == Pair(q.admitted[i], q.asked[i])
  {
    assert Sockets(q.served)[i] == q.served[i].socket && Observers(q.served)[i] == q.served[i].observer;
  }

  // The server's side.

  datatype Server = Server(
    spaces: map<Name, Queue>,
    dynamicWaiters: map<Name, seq<Observer>>,
    closed: bool,
    // History.
    issued: nat,                       // observers are numbered in the order of their calls
    refused: seq<Observer>,            // rejected at once, the server being closed
    abandoned: map<Name, seq<Observer>>)

  const NEW_SERVER := Server(map[], map[], false, 0, [], map[])

  function NextAll(q: Queue, observers: seq<Observer>): Queue
    decreases |observers|
  {
    if observers == [] then q else NextAll(Next(q, observers[0]), observers[1..])
  }

  function Waiting(s: Server, name: Name): seq<Observer> {
    if name in s.dynamicWaiters then s.dynamicWaiters[name] else []
  }

  /** `getNamespace` for a new name hands the waiting observers over. */
  function Create(s: Server, name: Name): Server {
    if name in s.spaces then s
    else s.(
      spaces := s.spaces[name := NextAll(EMPTY.(closed := s.closed), Waiting(s, name))],
      dynamicWaiters := s.dynamicWaiters - {name})
  }

  /** `Server.nextConnection`; `dynamic` says that only a dynamic parent can create the name. */
  function NextConnection(s: Server, name: Name, dynamic: bool): Server {
    var o := s.issued;
    if s.closed then s.(issued := o + 1, refused := s.refused + [o])
    else if name !in s.spaces && dynamic then
      s.(issued := o + 1, dynamicWaiters := s.dynamicWaiters[name := Waiting(s, name) + [o]])
    else
      var p := Create(s, name);
      p.(issued := o + 1, spaces := p.spaces[name := Next(p.spaces[name], o)])
  }

  function CloseServer(s: Server): Server {
    if s.closed then s
    else s.(
      closed := true,
      dynamicWaiters := map[],
      abandoned := s.dynamicWaiters,
      spaces := map name | name in s.spaces :: Close(s.spaces[name]))
  }

  datatype Event =
    | Ask(name: Name, dynamic: bool)
    | Appear(name: Name)
    | Admit(name: Name, socket: Socket)
    | Withdraw(name: Name, socket: Socket)
    | CloseAll

  /** Admissions are rejected once the namespace is closed, so nothing is offered then. */
  function Step(s: Server, e: Event): Server {
    match e
    case Ask(name, dynamic) => NextConnection(s, name, dynamic)
    case Appear(name) => Create(s, name)
    case Admit(name, socket) =>
      if name in s.spaces && !s.spaces[name].closed
      then s.(spaces := s.spaces[name := Offer(s.spaces[name], socket)]) else s
    case Withdraw(name, socket) =>
      if name in s.spaces && !s.spaces[name].closed
      then s.(spaces := s.spaces[name := Discard(s.spaces[name], socket)]) else s
    case CloseAll => CloseServer(s)
  }

  function Run(s: Server, events: seq<Event>): Server
    decreases |events|
  {
    if events == [] then s else Run(Step(s, events[0]), events[1..])
  }

  // Every call has one place.

  ghost predicate Rising(xs: seq<Observer>, bound: nat) {
    && (forall i :: 0 <= i < |xs| ==> xs[i] < bound)
    && (forall i, j :: 0 <= i < j < |xs| ==> xs[i] < xs[j])
  }

  /** All calls made for a name, in order; those given up when the server closed, too. */
  function AskedFor(s: Server, name: Name): seq<Observer> {
    if name in s.abandoned then s.abandoned[name]
    else if name in s.spaces then s.spaces[name].asked
    else Waiting(s, name)
  }

  ghost predicate Consistent(s: Server) {
    && (forall name :: name in s.spaces ==>
          && Matched(s.spaces[name]) && s.spaces[name].closed == s.closed && name !in s.dynamicWaiters
          && (name in s.abandoned ==> s.spaces[name].asked == []))
    && (s.closed ==> s.dynamicWaiters == map[])
    && (!s.closed ==> s.abandoned == map[] && s.refused == [])
  }

  /** Calls are numbered upwards, each is counted for one name or as refused, and none is lost. */
  ghost predicate Separate(s: Server) {
    && (forall name :: Rising(AskedFor(s, name), s.issued))
    && Rising(s.refused, s.issued)
    && (forall name, o :: o in AskedFor(s, name) ==> o !in s.refused)
    && (forall name, other, o :: o in AskedFor(s, name) && o in AskedFor(s, other) ==> name == other)
    && (forall o: nat :: o < s.issued ==> o in s.refused || exists name :: o in AskedFor(s, name))
  }

  ghost predicate Good(s: Server) {
    Consistent(s) && Separate(s)
  }

  /** Every name has been asked for the same calls as before. */
  ghost predicate SameCalls(s: Server, q: Server) {
    q.issued == s.issued && q.refused == s.refused && forall name :: AskedFor(q, name) == AskedFor(s, name)
  }

  lemma SameCallsKeepSeparate(s: Server, q: Server)
    requires Separate(s) && SameCalls(s, q)
    ensures Separate(q)
  {
    hide Rising, AskedFor;
    forall o: nat | o < q.issued ensures o in q.refused || exists name :: o in AskedFor(q, name) {
      if o !in s.refused {
        var name :| o in AskedFor(s, name);
        assert o in AskedFor(q, name);
      }
    }
  }

  lemma {:induction false} NextAllWaits(q: Queue, observers: seq<Observer>)
    requires Matched(q) && !q.closed && q.ready == []
    ensures var r := NextAll(q, observers);
            r == q.(waiters := q.waiters + observers, asked := q.asked + observers) && Matched(r)
    decreases |observers|
  {
    if observers == [] {
      assert q.waiters + observers == q.waiters && q.asked + observers == q.asked;
    } else {
      NextMatched(q, observers[0]);
      NextAllWaits(Next(q, observers[0]), observers[1..]);
      assert q.waiters + observers == q.waiters + [observers[0]] + observers[1..];
      assert q.asked + observers == q.asked + [observers[0]] + observers[1..];
    }
  }

  /** The new namespace starts with the observers that waited for its name, in their order. */
  lemma CreateHandsOver(s: Server, name: Name)
    requires Consistent(s)
    ensures var q := Create(s, name);
            && Consistent(q) && SameCalls(s, q) && q.closed == s.closed && name in q.spaces
            && (name !in s.spaces ==> q.spaces[name].waiters == Waiting(s, name) && name !in q.dynamicWaiters)
  {
    if name !in s.spaces {
      if !s.closed { NextAllWaits(EMPTY, Waiting(s, name)); } else { assert Waiting(s, name) == []; }
    }
  }

  /** One more call, for one name. */
  ghost predicate OneCall(s: Server, q: Server, name: Name) {
    && q.issued == s.issued + 1 && q.refused == s.refused
    && AskedFor(q, name) == AskedFor(s, name) + [s.issued]
    && forall other :: other != name ==> AskedFor(q, other) == AskedFor(s, other)
  }

  lemma OneCallKeepsSeparate(s: Server, q: Server, name: Name)
    requires Separate(s) && OneCall(s, q, name)
    ensures Separate(q)
  {
    hide AskedFor;
    assert forall other :: Rising(AskedFor(s, other), s.issued);
    forall other ensures Rising(AskedFor(q, other), q.issued) {
      assert Rising(AskedFor(s, other), s.issued);
    }
    forall other, o | o in AskedFor(q, other) ensures o !in q.refused {
      assert Rising(q.refused, s.issued);
      assert o in AskedFor(s, other) || o == s.issued;
    }
    forall one, other, o | o in AskedFor(q, one) && o in AskedFor(q, other) ensures one == other {
      assert Rising(AskedFor(s, one), s.issued) && Rising(AskedFor(s, other), s.issued);
    }
    forall o: nat | o < q.issued ensures o in q.refused || exists other :: o in AskedFor(q, other) {
      if o == s.issued {
        assert o in AskedFor(q, name);
      } else if o !in s.refused {
        var other :| o in AskedFor(s, other);
        assert o in AskedFor(q, other);
      }
    }
  }

  lemma RefusedKeepsSeparate(s: Server)
    requires Separate(s)
    ensures Separate(s.(issued := s.issued + 1, refused := s.refused + [s.issued]))
  {
    var q := s.(issued := s.issued + 1, refused := s.refused + [s.issued]);
    assert forall name :: AskedFor(q, name) == AskedFor(s, name);
    hide AskedFor;
    forall name ensures Rising(AskedFor(q, name), q.issued) {
      assert Rising(AskedFor(s, name), s.issued);
    }
    forall name, o | o in AskedFor(q, name) ensures o !in q.refused {
      assert Rising(AskedFor(s, name), s.issued);
    }
    forall o: nat | o < q.issued ensures o in q.refused || exists name :: o in AskedFor(q, name) {
      if o < s.issued && o !in s.refused {
        var name :| o in AskedFor(s, name);
        assert o in AskedFor(q, name);
      }
    }
  }

  lemma AskDynamic(s: Server, name: Name)
    requires Good(s) && !s.closed && name !in s.spaces
    ensures Good(NextConnection(s, name, true))
  {
    hide Separate;
    var q := NextConnection(s, name, true);
    assert OneCall(s, q, name);
    OneCallKeepsSeparate(s, q, name);
  }

  lemma AskConcrete(s: Server, name: Name)
    requires Good(s) && !s.closed && name in s.spaces
    ensures Good(s.(issued := s.issued + 1, spaces := s.spaces[name := Next(s.spaces[name], s.issued)]))
  {
    hide Separate;
    var q := s.(issued := s.issued + 1, spaces := s.spaces[name := Next(s.spaces[name], s.issued)]);
    NextMatched(s.spaces[name], s.issued);
    assert OneCall(s, q, name);
    OneCallKeepsSeparate(s, q, name);
  }

  lemma AskClosed(s: Server, name: Name, dynamic: bool)
    requires Good(s) && s.closed
    ensures Good(NextConnection(s, name, dynamic))
  {
    RefusedKeepsSeparate(s);
    hide Separate;
  }

  lemma CreateGood(s: Server, name: Name)
    requires Good(s)
    ensures Good(Create(s, name)) && Create(s, name).closed == s.closed && name in Create(s, name).spaces
  {
    hide Separate, Consistent, Create, SameCalls;
    CreateHandsOver(s, name);
    SameCallsKeepSeparate(s, Create(s, name));
  }

  lemma AskGood(s: Server, name: Name, dynamic: bool)
    requires Good(s)
    ensures Good(NextConnection(s, name, dynamic))
  {
    hide Good, Create, Next;
    if s.closed {
      AskClosed(s, name, dynamic);
    } else if name !in s.spaces && dynamic {
      AskDynamic(s, name);
    } else {
      CreateGood(s, name);
      SameIssued(s, name);
      AskConcrete(Create(s, name), name);
    }
  }

  lemma SameIssued(s: Server, name: Name)
    ensures Create(s, name).issued == s.issued
  {}

  lemma CloseGood(s: Server)
    requires Good(s)
    ensures Good(CloseServer(s))
  {
    hide Separate;
    var q := CloseServer(s);
    if !s.closed {
      forall name | name in q.spaces ensures Matched(q.spaces[name]) { CloseMatched(s.spaces[name]); }
      assert SameCalls(s, q);
    }
    SameCallsKeepSeparate(s, q);
  }

  lemma AdmitGood(s: Server, name: Name, socket: Socket)
    requires Good(s)
    ensures Good(Step(s, Admit(name, socket)))
  {
    hide Separate, Rising, Matched;
    if name in s.spaces && !s.spaces[name].closed { OfferMatched(s.spaces[name], socket); }
    SameCallsKeepSeparate(s, Step(s, Admit(name, socket)));
  }

  lemma WithdrawGood(s: Server, name: Name, socket: Socket)
    requires Good(s)
    ensures Good(Step(s, Withdraw(name, socket)))
  {
    hide Separate, Rising, Matched;
    if name in s.spaces && !s.spaces[name].closed { DiscardMatched(s.spaces[name], socket); }
    SameCallsKeepSeparate(s, Step(s, Withdraw(name, socket)));
  }

  lemma StepGood(s: Server, e: Event)
    requires Good(s)
    ensures Good(Step(s, e))
  {
    hide Separate, Rising, Create, NextConnection, CloseServer;
    match e {
      case Ask(name, dynamic) => AskGood(s, name, dynamic);
      case Appear(name) => CreateHandsOver(s, name); SameCallsKeepSeparate(s, Step(s, e));
      case Admit(name, socket) => AdmitGood(s, name, socket);
      case Withdraw(name, socket) => WithdrawGood(s, name, socket);
      case CloseAll => CloseGood(s);
    }
  }

  lemma {:induction false} RunGood(s: Server, events: seq<Event>)
    requires Good(s)
    ensures Good(Run(s, events))
    decreases |events|
  {
    hide Good, Step;
    if events != [] {
      StepGood(s, events[0]);
      RunGood(Step(s, events[0]), events[1..]);
    }
  }

  lemma NewIsGood()
    ensures Good(NEW_SERVER)
  {
    assert forall name :: AskedFor(NEW_SERVER, name) == [];
  }

  /**
    In every run and for every name: sockets and calls are matched first to first, they
    never wait on both sides, and closing rejects exactly the calls still waiting.
   */
  lemma PairingIsLinear(events: seq<Event>, name: Name)
    requires name in Run(NEW_SERVER, events).spaces
    ensures var q := Run(NEW_SERVER, events).spaces[name];
            && (q.ready == [] || q.waiters == [])
            && (forall i :: 0 <= i < |q.served| ==>
                  i < |q.admitted| && i < |q.asked| && q.served[i] == Pair(q.admitted[i], q.asked[i]))
            && q.asked == Observers(q.served) + q.waiters + q.rejected
            && (if q.closed then q.waiters == [] else q.rejected == [])
  {
    NewIsGood();
    RunGood(NEW_SERVER, events);
    var q := Run(NEW_SERVER, events).spaces[name];
    forall i | 0 <= i < |q.served|
      ensures i < |q.admitted| && i < |q.asked| && q.served[i] == Pair(q.admitted[i], q.asked[i])
    {
      FirstToFirst(q, i);
    }
  }

  /** Where a call of `nextConnection` is. */
  datatype Place = Served | Pending | Rejected | Dynamic | Abandoned | Refused

  ghost predicate At(s: Server, o: Observer, p: Place) {
    match p
    case Served => exists name, i :: name in s.spaces && 0 <= i < |s.spaces[name].served| && s.spaces[name].served[i].observer == o
    case Pending => exists name :: name in s.spaces && o in s.spaces[name].waiters
    case Rejected => exists name :: name in s.spaces && o in s.spaces[name].rejected
    case Dynamic => exists name :: name in s.dynamicWaiters && o in s.dynamicWaiters[name]
    case Abandoned => exists name :: name in s.abandoned && o in s.abandoned[name]
    case Refused => o in s.refused
  }

  /** The part of a name's calls a place stands for. */
  function Part(s: Server, name: Name, p: Place): seq<Observer> {
    match p
    case Served => if name in s.spaces then Observers(s.spaces[name].served) else []
    case Pending => if name in s.spaces then s.spaces[name].waiters else []
    case Rejected => if name in s.spaces then s.spaces[name].rejected else []
    case Dynamic => if name in s.dynamicWaiters then s.dynamicWaiters[name] else []
    case Abandoned => if name in s.abandoned then s.abandoned[name] else []
    case Refused => []
  }

  lemma PartOf(s: Server, o: Observer, p: Place) returns (name: Name)
    requires Good(s) && At(s, o, p) && p != Refused
    ensures o in Part(s, name, p) && o in AskedFor(s, name)
  {
    hide Separate;
    match p {
      case Served =>
        var n, i :| n in s.spaces && 0 <= i < |s.spaces[n].served| && s.spaces[n].served[i].observer == o;
        name := n;
        assert Observers(s.spaces[n].served)[i] == o;
        assert o in s.spaces[n].asked;
      case Pending => name :| name in s.spaces && o in s.spaces[name].waiters; assert o in s.spaces[name].asked;
      case Rejected => name :| name in s.spaces && o in s.spaces[name].rejected; assert o in s.spaces[name].asked;
      case Dynamic => name :| name in s.dynamicWaiters && o in s.dynamicWaiters[name];
      case Abandoned => name :| name in s.abandoned && o in s.abandoned[name];
    }
  }

  lemma DisjointParts(q: Queue, bound: nat, o: Observer)
    requires Matched(q) && Rising(q.asked, bound)
    ensures !(o in Observers(q.served) && o in q.waiters)
    ensures !(o in Observers(q.served) && o in q.rejected)
    ensures !(o in q.waiters && o in q.rejected)
  {
    var a, b, c := Observers(q.served), q.waiters, q.rejected;
    assert q.asked == a + b + c;
    forall i, j | 0 <= i < |a| && 0 <= j < |b| ensures a[i] != b[j] { assert q.asked[i] < q.asked[|a| + j]; }
    forall i, j | 0 <= i < |a| && 0 <= j < |c| ensures a[i] != c[j] { assert q.asked[i] < q.asked[|a| + |b| + j]; }
  }

  lemma PlacesAreApart(s: Server, name: Name, o: Observer, p: Place, r: Place)
    requires Good(s) && o in Part(s, name, p) && o in Part(s, name, r)
    ensures p == r
  {
    if name in s.spaces {
      assert Rising(AskedFor(s, name), s.issued);
      if name !in s.abandoned { DisjointParts(s.spaces[name], s.issued, o); }
    }
  }

  /** Every call of `nextConnection` is in exactly one place. */
  lemma EveryCallHasOnePlace(events: seq<Event>, o: Observer, p: Place, r: Place)
    requires var s := Run(NEW_SERVER, events); At(s, o, p) && At(s, o, r)
    ensures p == r
  {
    hide Run;
    NewIsGood();
    RunGood(NEW_SERVER, events);
    var s := Run(NEW_SERVER, events);
    hide Rising, Consistent, Matched;
    if p != Refused && r != Refused {
      var name := PartOf(s, o, p);
      var other := PartOf(s, o, r);
      PlacesAreApart(s, name, o, p, r);
    } else if p != Refused {
      var name := PartOf(s, o, p);
    } else if r != Refused {
      var name := PartOf(s, o, r);
    }
  }

  /** And in at least one. */
  lemma EveryCallHasAPlace(events: seq<Event>, o: Observer) returns (p: Place)
    requires o < Run(NEW_SERVER, events).issued
    ensures At(Run(NEW_SERVER, events), o, p)
  {
    hide Run;
    NewIsGood();
    RunGood(NEW_SERVER, events);
    var s := Run(NEW_SERVER, events);
    if o in s.refused { return Refused; }
    var name :| o in AskedFor(s, name);
    hide Separate;
    p := PlaceFor(s, name, o);
  }

  lemma PlaceFor(s: Server, name: Name, o: Observer) returns (p: Place)
    requires Consistent(s) && o in AskedFor(s, name)
    ensures At(s, o, p)
  {
    if name in s.abandoned { return Abandoned; }
    if name !in s.spaces { return Dynamic; }
    var q := s.spaces[name];
    assert Matched(q);
    hide Consistent;
    if o in q.waiters { return Pending; }
    if o in q.rejected { return Rejected; }
    var i :| 0 <= i < |Observers(q.served)| && Observers(q.served)[i] == o;
    assert q.served[i].observer == o;
    return Served;
  }
}
