/** Room membership of a namespace. */
module Rooms {
  // The adapter's two indexes, each socket's own room view, and the roster of admitted sockets.
  // Sockets and rooms are named by numbers; a socket's own room carries the socket's name.

  type Sid = nat
  type Room = nat

  datatype State = State(
    rooms: map<Room, set<Sid>>,
    sids: map<Sid, set<Room>>,
    views: map<Sid, set<Room>>,
    cleaned: set<Sid>,
    draining: set<Sid>,
    roster: set<Sid>)

  const EMPTY := State(map[], map[], map[], {}, {}, {})

  function Members(r: State, room: Room): set<Sid> {
    if room in r.rooms then r.rooms[room] else {}
  }

  function Indexed(r: State, sid: Sid): set<Room> {
    if sid in r.sids then r.sids[sid] else {}
  }

  /** `socket.rooms` */
  function View(r: State, sid: Sid): set<Room> {
    if sid in r.views then r.views[sid] else {}
  }

  /** `Adapter.add` */
  function Add(r: State, sid: Sid, room: Room): State {
    r.(rooms := r.rooms[room := Members(r, room) + {sid}],
       sids := r.sids[sid := Indexed(r, sid) + {room}])
  }

  /** A room key is dropped with its last member. */
  function Without(rooms: map<Room, set<Sid>>, sid: Sid, room: Room): map<Room, set<Sid>> {
    if room !in rooms then rooms
    else if rooms[room] - {sid} == {} then rooms - {room}
    else rooms[room := rooms[room] - {sid}]
  }

  /** `Adapter.del` */
  function Del(r: State, sid: Sid, room: Room): State {
    r.(rooms := Without(r.rooms, sid, room),
       sids := if sid in r.sids then r.sids[sid := r.sids[sid] - {room}] else r.sids)
  }

  /** `ServerSocket.join` of one room */
  function Join(r: State, sid: Sid, room: Room): State {
    if sid in r.cleaned then r
    else
      var q := Add(r, sid, room);
      q.(views := q.views[sid := View(q, sid) + {room}])
  }

  /** `ServerSocket.leave` */
  function Leave(r: State, sid: Sid, room: Room): State {
    var q := Del(r, sid, room);
    q.(views := q.views[sid := View(q, sid) - {room}])
  }

  function Register(r: State, sid: Sid): State {
    r.(roster := r.roster + {sid})
  }

  /** What the loop over `socket.rooms` leaves of the room index. */
  function Purge(rooms: map<Room, set<Sid>>, sid: Sid, view: set<Room>): map<Room, set<Sid>> {
    map room | room in rooms && !(room in view && rooms[room] - {sid} == {}) ::
      if room in view then rooms[room] - {sid} else rooms[room]
  }

  /**
    `cleanupMembership` up to the adapter's own removal hook, which may deliver packets
    and so run listeners. It happens once per socket.
   */
  function CleanBegin(r: State, sid: Sid): State {
    if sid in r.cleaned then r
    else r.(
      cleaned := r.cleaned + {sid},
      rooms := Purge(r.rooms, sid, View(r, sid)),
      sids := r.sids - {sid},
      draining := r.draining + {sid})
  }

  /** The rest of `cleanupMembership`. */
  function CleanEnd(r: State, sid: Sid): State {
    if sid !in r.draining then r
    else r.(
      draining := r.draining - {sid},
      views := r.views[sid := {}],
      roster := r.roster - {sid})
  }

  function Cleanup(r: State, sid: Sid): State {
    if sid in r.cleaned then r else CleanEnd(CleanBegin(r, sid), sid)
  }

  // One relation, seen three ways.

  ghost predicate NoEmptyRoom(r: State) {
    forall room :: room in r.rooms ==> r.rooms[room] != {}
  }

  /** The two indexes mirror each other. */
  ghost predicate Mirrored(r: State) {
    forall sid, room :: sid in Members(r, room) <==> room in Indexed(r, sid)
  }

  /** The socket's own view is what the adapter knows, except while the adapter drains it. */
  ghost predicate Viewed(r: State) {
    && (forall sid :: sid !in r.draining ==> View(r, sid) == Indexed(r, sid))
    && (forall sid :: sid in r.draining ==> Indexed(r, sid) == {})
  }

  ghost predicate Gone(r: State) {
    && (forall sid :: sid in r.cleaned ==> sid !in r.sids)
    && r.draining <= r.cleaned
  }

  ghost predicate Coherent(r: State) {
    NoEmptyRoom(r) && Mirrored(r) && Viewed(r) && Gone(r)
  }

  lemma EmptyIsCoherent()
    ensures Coherent(EMPTY)
  {}

  lemma MembersAfterAdd(r: State, sid: Sid, room: Room, other: Room)
    ensures Members(Add(r, sid, room), other) == if other == room then Members(r, other) + {sid} else Members(r, other)
  {}

  lemma MembersAfterDel(r: State, sid: Sid, room: Room, other: Room)
    ensures Members(Del(r, sid, room), other) == if other == room then Members(r, other) - {sid} else Members(r, other)
  {}

  lemma JoinKeepsCoherent(r: State, sid: Sid, room: Room)
    requires Coherent(r)
    ensures Coherent(Join(r, sid, room))
  {
    if sid !in r.cleaned {
      var q := Join(r, sid, room);
      forall s, other ensures s in Members(q, other) <==> other in Indexed(q, s) {
        MembersAfterAdd(r, sid, room, other);
        assert s in Members(r, other) <==> other in Indexed(r, s);
      }
      forall s ensures Indexed(q, s) == if s == sid then Indexed(r, s) + {room} else Indexed(r, s) {}
      forall s ensures View(q, s) == if s == sid then View(r, s) + {room} else View(r, s) {}
      forall s | s !in q.draining ensures View(q, s) == Indexed(q, s) {
        assert View(r, s) == Indexed(r, s);
      }
    }
  }

  lemma LeaveKeepsCoherent(r: State, sid: Sid, room: Room)
    requires Coherent(r)
    ensures Coherent(Leave(r, sid, room))
  {
    var q := Leave(r, sid, room);
    forall s, other ensures s in Members(q, other) <==> other in Indexed(q, s) {
      MembersAfterDel(r, sid, room, other);
      assert s in Members(r, other) <==> other in Indexed(r, s);
    }
    forall s ensures Indexed(q, s) == if s == sid then Indexed(r, s) - {room} else Indexed(r, s) {}
    forall s ensures View(q, s) == if s == sid then View(r, s) - {room} else View(r, s) {}
    forall s | s !in q.draining ensures View(q, s) == Indexed(q, s) {
      assert View(r, s) == Indexed(r, s);
    }
  }

  lemma RegisterKeepsCoherent(r: State, sid: Sid)
    requires Coherent(r)
    ensures Coherent(Register(r, sid))
  {
    var q := Register(r, sid);
    forall s ensures Indexed(q, s) == Indexed(r, s) && View(q, s) == View(r, s) {}
    forall room ensures Members(q, room) == Members(r, room) {}
  }

  lemma MembersAfterPurge(r: State, sid: Sid, room: Room)
    requires Mirrored(r) && View(r, sid) == Indexed(r, sid)
    ensures Members(r.(rooms := Purge(r.rooms, sid, View(r, sid))), room) == Members(r, room) - {sid}
  {
    assert sid in Members(r, room) <==> room in Indexed(r, sid);
  }

  lemma CleanBeginKeepsCoherent(r: State, sid: Sid)
    requires Coherent(r)
    ensures Coherent(CleanBegin(r, sid))
  {
    if sid !in r.cleaned {
      var q := CleanBegin(r, sid);
      forall room
        ensures Members(q, room) == Members(r, room) - {sid}
      {
        MembersAfterPurge(r, sid, room);
      }
    }
  }

  lemma CleanEndKeepsCoherent(r: State, sid: Sid)
    requires Coherent(r)
    ensures Coherent(CleanEnd(r, sid))
  {
    var q := CleanEnd(r, sid);
    forall s ensures Indexed(q, s) == Indexed(r, s) {}
    forall s ensures sid in r.draining ==> View(q, s) == if s == sid then {} else View(r, s) {}
    forall room ensures Members(q, room) == Members(r, room) {}
  }

  /** After cleanup a socket is in no index, no view and no roster. */
  lemma CleanupRemoves(r: State, sid: Sid)
    requires Coherent(r) && sid !in r.cleaned
    ensures var q := Cleanup(r, sid);
            && Coherent(q) && sid in q.cleaned && sid !in q.draining
            && View(q, sid) == {} && sid !in q.sids && sid !in q.roster
            && (forall room :: sid !in Members(q, room))
  {
    CleanBeginKeepsCoherent(r, sid);
    CleanEndKeepsCoherent(CleanBegin(r, sid), sid);
  }

  /** All three views of every socket agree, and no room is empty. */
  ghost predicate Agree(r: State) {
    && NoEmptyRoom(r)
    && (forall sid, room :: sid in Members(r, room) <==> room in Indexed(r, sid))
    && (forall sid :: View(r, sid) == Indexed(r, sid))
  }

  /**
    In a coherent state the three views agree exactly when every socket whose adapter
    is being drained has an empty view: only during that hook can they differ.
   */
  lemma AgreeExactly(r: State)
    requires Coherent(r)
    ensures Agree(r) <==> forall sid :: sid in r.draining ==> View(r, sid) == {}
  {}

  datatype Op =
    | JoinOp(sid: Sid, room: Room)
    | LeaveOp(sid: Sid, room: Room)
    | RegisterOp(sid: Sid)
    | CleanBeginOp(sid: Sid)
    | CleanEndOp(sid: Sid)

  function Apply(r: State, op: Op): State {
    match op
    case JoinOp(sid, room) => Join(r, sid, room)
    case LeaveOp(sid, room) => Leave(r, sid, room)
    case RegisterOp(sid) => Register(r, sid)
    case CleanBeginOp(sid) => CleanBegin(r, sid)
    case CleanEndOp(sid) => CleanEnd(r, sid)
  }

  function ApplyAll(r: State, ops: seq<Op>): State
    decreases |ops|
  {
    if ops == [] then r else ApplyAll(Apply(r, ops[0]), ops[1..])
  }

  /** Whatever sockets do and in whatever order, the state stays coherent. */
  lemma {:induction false} AlwaysCoherent(r: State, ops: seq<Op>)
    requires Coherent(r)
    ensures Coherent(ApplyAll(r, ops))
    decreases |ops|
  {
    hide Coherent, Apply;
    if ops != [] {
      ApplyKeepsCoherent(r, ops[0]);
      AlwaysCoherent(Apply(r, ops[0]), ops[1..]);
    }
  }

  lemma ApplyKeepsCoherent(r: State, op: Op)
    requires Coherent(r)
    ensures Coherent(Apply(r, op))
  {
    match op
    case JoinOp(sid, room) => JoinKeepsCoherent(r, sid, room);
    case LeaveOp(sid, room) => LeaveKeepsCoherent(r, sid, room);
    case RegisterOp(sid) => RegisterKeepsCoherent(r, sid);
    case CleanBeginOp(sid) => CleanBeginKeepsCoherent(r, sid);
    case CleanEndOp(sid) => CleanEndKeepsCoherent(r, sid);
  }

  /** A cleaned socket can never be given a room again. */
  lemma {:induction false} CleanedStaysOut(r: State, ops: seq<Op>, sid: Sid)
    requires Coherent(r) && sid in r.cleaned
    ensures var q := ApplyAll(r, ops);
            sid in q.cleaned && sid !in q.sids && forall room :: sid !in Members(q, room)
    decreases |ops|
  {
    if ops == [] {
      forall room ensures sid !in Members(r, room) {
        assert sid in Members(r, room) <==> room in Indexed(r, sid);
      }
    } else {
      ApplyKeepsCoherent(r, ops[0]);
      CleanedStaysOut(Apply(r, ops[0]), ops[1..], sid);
    }
  }

  /** While a socket is drained, its view still lists the rooms the adapter has forgotten. */
  lemma DrainingDisagrees(sid: Sid, room: Room)
    ensures var r := CleanBegin(Join(EMPTY, sid, room), sid);
            && Coherent(r) && sid in r.draining
            && room in View(r, sid) && sid !in Members(r, room) && !Agree(r)
  {
    EmptyIsCoherent();
    JoinKeepsCoherent(EMPTY, sid, room);
    var q := Join(EMPTY, sid, room);
    CleanBeginKeepsCoherent(q, sid);
    var r := CleanBegin(q, sid);
    assert Members(q, room) == {sid};
  }
}
