/** Broadcast operators and their routing. */
module Broadcast {
  // Narrowing, the indexed routing decision, the scan used for management operations, and the
  // filter hook of an adapter.

  import opened Common
  import Rooms

  datatype Operator = Operator(
    targets: set<Rooms.Room>,
    excepts: set<Rooms.Room>,
    isVolatile: bool,
    timeout: Option<nat>)

  const EVERYONE := Operator({}, {}, false, None)

  // Narrowing builds new operators.

  datatype Narrowing =
    | To(names: seq<Rooms.Room>)
    | Except(names: seq<Rooms.Room>)
    | Volatile
    | Timeout(ms: nat)
    | Compress

  function Names(names: seq<Rooms.Room>): set<Rooms.Room> {
    set name | name in names
  }

  function Narrow(op: Operator, n: Narrowing): Operator {
    match n
    case To(names) => op.(targets := op.targets + Names(names))
    case Except(names) => op.(excepts := op.excepts + Names(names))
    case Volatile => op.(isVolatile := true)
    case Timeout(ms) => op.(timeout := Some(ms))
    case Compress => op
  }

  function NarrowAll(op: Operator, steps: seq<Narrowing>): Operator
    decreases |steps|
  {
    if steps == [] then op else NarrowAll(Narrow(op, steps[0]), steps[1..])
  }

  /** A chain of calls only collects rooms and remembers whether it was ever volatile. */
  lemma {:induction false} NarrowAllCollects(op: Operator, steps: seq<Narrowing>, name: Rooms.Room)
    ensures var q := NarrowAll(op, steps);
            && (name in q.targets <==> name in op.targets || exists n :: n in steps && n.To? && name in n.names)
            && (name in q.excepts <==> name in op.excepts || exists n :: n in steps && n.Except? && name in n.names)
            && (q.isVolatile <==> op.isVolatile || Volatile in steps)
    decreases |steps|
  {
    if steps != [] {
      NarrowAllCollects(Narrow(op, steps[0]), steps[1..], name);
      assert forall n :: n in steps <==> n == steps[0] || n in steps[1..];
    }
  }

  /** The same calls in any order, and any number of times, leave the same rooms and flag. */
  lemma NarrowingOrderIsIrrelevant(op: Operator, first: seq<Narrowing>, second: seq<Narrowing>)
    requires forall n :: n in first <==> n in second
    ensures var p, q := NarrowAll(op, first), NarrowAll(op, second);
            p.targets == q.targets && p.excepts == q.excepts && p.isVolatile == q.isVolatile
  {
    var p, q := NarrowAll(op, first), NarrowAll(op, second);
    forall name ensures (name in p.targets <==> name in q.targets) && (name in p.excepts <==> name in q.excepts) {
      NarrowAllCollects(op, first, name);
      NarrowAllCollects(op, second, name);
    }
    NarrowAllCollects(op, first, 0);
    NarrowAllCollects(op, second, 0);
  }

  // Who is meant.

  /** Routed to by the adapter's room index. */
  ghost predicate Routed(op: Operator, r: Rooms.State, sid: Rooms.Sid) {
    && sid in r.roster
    && (op.targets == {} || exists room :: room in op.targets && sid in Rooms.Members(r, room))
    && !(exists room :: room in op.excepts && sid in Rooms.Members(r, room))
  }

  /** Meant according to the socket's own rooms. */
  ghost predicate Managed(op: Operator, r: Rooms.State, sid: Rooms.Sid) {
    && sid in r.roster
    && (op.targets == {} || exists room :: room in op.targets && room in Rooms.View(r, sid))
    && !(exists room :: room in op.excepts && room in Rooms.View(r, sid))
  }

  lemma SameView(op: Operator, r: Rooms.State, sid: Rooms.Sid)
    requires Rooms.Coherent(r) && Rooms.View(r, sid) == Rooms.Indexed(r, sid)
    ensures Routed(op, r, sid) <==> Managed(op, r, sid)
  {
    forall room ensures sid in Rooms.Members(r, room) <==> room in Rooms.View(r, sid) {
      assert sid in Rooms.Members(r, room) <==> room in Rooms.Indexed(r, sid);
    }
  }

  /**
    Every operator routes to a socket exactly when it manages it, unless the socket is on
    the roster while its adapter drains it and it still lists rooms.
   */
  lemma RoutingAgreesWithScan(r: Rooms.State, sid: Rooms.Sid)
    requires Rooms.Coherent(r)
    ensures (forall op :: Routed(op, r, sid) <==> Managed(op, r, sid)) <==>
            (sid in r.draining && sid in r.roster ==> Rooms.View(r, sid) == {})
  {
    if sid !in r.draining || Rooms.View(r, sid) == {} {
      assert Rooms.View(r, sid) == Rooms.Indexed(r, sid);
      forall op ensures Routed(op, r, sid) <==> Managed(op, r, sid) { SameView(op, r, sid); }
    } else if sid in r.roster {
      var room :| room in Rooms.View(r, sid);
      var op := Operator({room}, {}, false, None);
      assert sid in Rooms.Members(r, room) <==> room in Rooms.Indexed(r, sid);
      assert Managed(op, r, sid) && !Routed(op, r, sid);
    }
  }

  /** While a socket is drained the two can disagree: it still lists the rooms it has left. */
  lemma DrainingIsRoutedDifferently(sid: Rooms.Sid, room: Rooms.Room)
    requires room != sid
    ensures var r := Rooms.CleanBegin(Rooms.Join(Rooms.Register(Rooms.EMPTY, sid), sid, room), sid);
            var op := Narrow(EVERYONE, To([room]));
            Rooms.Coherent(r) && Managed(op, r, sid) && !Routed(op, r, sid)
  {
    Rooms.EmptyIsCoherent();
    Rooms.RegisterKeepsCoherent(Rooms.EMPTY, sid);
    var p := Rooms.Register(Rooms.EMPTY, sid);
    Rooms.JoinKeepsCoherent(p, sid, room);
    var q := Rooms.Join(p, sid, room);
    Rooms.CleanBeginKeepsCoherent(q, sid);
    var r := Rooms.CleanBegin(q, sid);
    var op := Narrow(EVERYONE, To([room]));
    assert Rooms.Members(q, room) == {sid};
    assert op.targets == {room};
    assert room in Rooms.View(r, sid);
  }

  // The loops.

  /** `Adapter.socketsIn` */
  method SocketsIn(r: Rooms.State, names: set<Rooms.Room>) returns (sids: set<Rooms.Sid>)
    ensures forall sid :: sid in sids <==> exists room :: room in names && sid in Rooms.Members(r, room)
  {
    sids := {};
    var remaining := names;
    while remaining != {}
      invariant remaining <= names
      invariant forall sid :: sid in sids <==> exists room :: room in names - remaining && sid in Rooms.Members(r, room)
      decreases |remaining|
    {
      var room :| room in remaining;
      remaining := remaining - {room};
      assert names - remaining == names - (remaining + {room}) + {room};
      if room in r.rooms {
        var members := r.rooms[room];
        assert members == Rooms.Members(r, room);
        var before := sids;
        var left := members;
        while left != {}
          invariant left <= members && sids == before + (members - left)
          decreases |left|
        {
          var sid :| sid in left;
          sids := sids + {sid};
          left := left - {sid};
        }
      }
    }
  }

  /** Keeps the elements of `s` that `kept` holds, in order. */
  function Retain(s: seq<Rooms.Sid>, kept: set<Rooms.Sid>): seq<Rooms.Sid> {
    if s == [] then []
    else if s[|s| - 1] in kept then Retain(s[..|s| - 1], kept) + [s[|s| - 1]]
    else Retain(s[..|s| - 1], kept)
  }

  /** `positions` embeds `part` into `whole`. */
  ghost predicate Embeds(part: seq<Rooms.Sid>, whole: seq<Rooms.Sid>, positions: seq<nat>) {
    && |positions| == |part|
    && (forall i :: 0 <= i < |part| ==> positions[i] < |whole| && part[i] == whole[positions[i]])
    && (forall i, j :: 0 <= i < j < |part| ==> positions[i] < positions[j])
  }

  ghost predicate Subsequence(part: seq<Rooms.Sid>, whole: seq<Rooms.Sid>) {
    exists positions :: Embeds(part, whole, positions)
  }

  /** Whatever a filter hook answers, what is left is a subsequence of the selection. */
  lemma {:induction false} RetainIsSubsequence(s: seq<Rooms.Sid>, kept: set<Rooms.Sid>)
    ensures Subsequence(Retain(s, kept), s)
    ensures forall sid :: sid in Retain(s, kept) <==> sid in s && sid in kept
  {
    if s == [] {
      assert Embeds([], s, []);
    } else {
      var n := |s| - 1;
      RetainIsSubsequence(s[..n], kept);
      var positions :| Embeds(Retain(s[..n], kept), s[..n], positions);
      assert s == s[..n] + [s[n]];
      if s[n] in kept {
        assert Embeds(Retain(s, kept), s, positions + [n]);
      } else {
        assert Embeds(Retain(s, kept), s, positions);
      }
    }
  }

  method Filter(selected: seq<Rooms.Sid>, kept: set<Rooms.Sid>) returns (recipients: seq<Rooms.Sid>)
    ensures recipients == Retain(selected, kept)
  {
    recipients := [];
    var i := 0;
    while i < |selected|
      invariant i <= |selected| && recipients == Retain(selected[..i], kept)
    {
      assert selected[..i + 1][..i] == selected[..i];
      if selected[i] in kept { recipients := recipients + [selected[i]]; }
      i := i + 1;
    }
    assert selected[..i] == selected;
  }

  ghost predicate Distinct(s: seq<Rooms.Sid>) {
    forall i, j :: 0 <= i < j < |s| ==> s[i] != s[j]
  }

  /**
    `recipients`: the routed sockets, each once, in some order; volatile operators drop
    those whose client is not ready; a filter hook keeps a subsequence.
   */
  method Recipients(op: Operator, r: Rooms.State, ready: set<Rooms.Sid>, hook: Option<seq<Rooms.Sid> -> set<Rooms.Sid>>)
    returns (recipients: seq<Rooms.Sid>, selected: seq<Rooms.Sid>)
    ensures Distinct(selected)
    ensures forall sid :: sid in selected <==> Routed(op, r, sid) && (op.isVolatile ==> sid in ready)
    ensures hook == None ==> recipients == selected
    ensures hook.Some? ==> recipients == Retain(selected, hook.value(selected))
  {
    var targets := r.roster;
    if op.targets != {} { targets := SocketsIn(r, op.targets); }
    var excluded := SocketsIn(r, op.excepts);
    selected := [];
    var remaining := targets;
    while remaining != {}
      invariant remaining <= targets && Distinct(selected)
      invariant forall sid :: sid in selected <==>
                  sid in targets - remaining && sid !in excluded && sid in r.roster && (op.isVolatile ==> sid in ready)
      decreases |remaining|
    {
      var sid :| sid in remaining;
      remaining := remaining - {sid};
      if sid !in excluded && sid in r.roster && (op.isVolatile ==> sid in ready) {
        selected := selected + [sid];
      }
    }
    recipients := selected;
    if hook.Some? { recipients := Filter(selected, hook.value(selected)); }
  }

  /** `managementSockets`: a scan of the roster, once for every target room. */
  method ManagementSockets(op: Operator, r: Rooms.State, sockets: seq<Rooms.Sid>) returns (out: seq<Rooms.Sid>)
    requires Distinct(sockets) && forall sid :: sid in sockets <==> sid in r.roster
    ensures Distinct(out)
    ensures forall sid :: sid in out <==> Managed(op, r, sid)
  {
    var candidates := sockets;
    if op.targets != {} { candidates := ScanRooms(op.targets, r, sockets); }
    out := [];
    var i := 0;
    while i < |candidates|
      invariant i <= |candidates| && Distinct(out)
      invariant forall sid :: sid in out <==> sid in candidates[..i] && op.excepts * Rooms.View(r, sid) == {}
    {
      assert candidates[..i + 1] == candidates[..i] + [candidates[i]];
      if op.excepts * Rooms.View(r, candidates[i]) == {} { out := out + [candidates[i]]; }
      i := i + 1;
    }
    assert candidates[..i] == candidates;
    forall sid ensures op.excepts * Rooms.View(r, sid) == {} <==>
                       !(exists room :: room in op.excepts && room in Rooms.View(r, sid))
    {
      assert forall room :: room in op.excepts * Rooms.View(r, sid) <==> room in op.excepts && room in Rooms.View(r, sid);
    }
  }

  method ScanRooms(targets: set<Rooms.Room>, r: Rooms.State, sockets: seq<Rooms.Sid>) returns (candidates: seq<Rooms.Sid>)
    requires Distinct(sockets)
    ensures Distinct(candidates)
    ensures forall sid :: sid in candidates <==>
              sid in sockets && exists room :: room in targets && room in Rooms.View(r, sid)
  {
    candidates := [];
    var seen: set<Rooms.Sid> := {};
    var remaining := targets;
    while remaining != {}
      invariant remaining <= targets && Distinct(candidates)
      invariant forall sid :: sid in candidates <==> sid in seen
      invariant forall sid :: sid in seen <==>
                  sid in sockets && exists room :: room in targets - remaining && room in Rooms.View(r, sid)
      decreases |remaining|
    {
      var room :| room in remaining;
      ghost var done := targets - remaining;
      remaining := remaining - {room};
      ghost var before := seen;
      var i := 0;
      while i < |sockets|
        invariant i <= |sockets| && Distinct(candidates)
        invariant forall sid :: sid in candidates <==> sid in seen
        invariant forall sid :: sid in seen <==> sid in before || (sid in sockets[..i] && room in Rooms.View(r, sid))
      {
        var sid := sockets[i];
        assert sockets[..i + 1] == sockets[..i] + [sid];
        if sid !in seen && room in Rooms.View(r, sid) {
          seen := seen + {sid};
          candidates := candidates + [sid];
        }
        i := i + 1;
      }
      assert sockets[..i] == sockets;
      assert targets - remaining == done + {room};
    }
  }
}
