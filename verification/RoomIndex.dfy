/** The room indexes, changed in place. */
module RoomIndex {
  // `Adapter.add` and `del`, a socket's `join` and `leave`, and the loop of `cleanupMembership`.

  import Rooms

  /** `join` of several rooms, one after the other. */
  function JoinAll(r: Rooms.State, sid: Rooms.Sid, names: seq<Rooms.Room>): Rooms.State
    decreases |names|
  {
    if names == [] then r else JoinAll(Rooms.Join(r, sid, names[0]), sid, names[1..])
  }

  lemma JoinJoins(r: Rooms.State, sid: Rooms.Sid, room: Rooms.Room)
    requires Rooms.Coherent(r) && sid !in r.cleaned
    ensures var q := Rooms.Join(r, sid, room);
            && Rooms.Coherent(q) && q.cleaned == r.cleaned && q.roster == r.roster
            && Rooms.View(q, sid) == Rooms.View(r, sid) + {room}
            && (forall other :: other != sid ==> Rooms.View(q, other) == Rooms.View(r, other))
  {
    Rooms.JoinKeepsCoherent(r, sid, room);
    hide Rooms.Coherent;
  }

  /** The socket ends up in exactly the rooms it was in and the ones it asked for. */
  lemma {:induction false} JoinAllJoins(r: Rooms.State, sid: Rooms.Sid, names: seq<Rooms.Room>)
    requires Rooms.Coherent(r) && sid !in r.cleaned
    ensures var q := JoinAll(r, sid, names);
            && Rooms.Coherent(q) && q.cleaned == r.cleaned && q.roster == r.roster
            && Rooms.View(q, sid) == Rooms.View(r, sid) + (set name | name in names)
            && (forall other :: other != sid ==> Rooms.View(q, other) == Rooms.View(r, other))
    decreases |names|
  {
    hide Rooms.Coherent, Rooms.Join, Rooms.View;
    if names != [] {
      var q := Rooms.Join(r, sid, names[0]);
      JoinJoins(r, sid, names[0]);
      JoinAllJoins(q, sid, names[1..]);
      assert (set name | name in names) == {names[0]} + (set name | name in names[1..]);
    }
  }

  class Namespace {
    var rooms: map<Rooms.Room, set<Rooms.Sid>>
    var sids: map<Rooms.Sid, set<Rooms.Room>>
    var views: map<Rooms.Sid, set<Rooms.Room>>
    var cleaned: set<Rooms.Sid>
    var draining: set<Rooms.Sid>
    var roster: set<Rooms.Sid>

    ghost function Now(): Rooms.State
      reads this
    {
      Rooms.State(rooms, sids, views, cleaned, draining, roster)
    }

    constructor ()
      ensures Now() == Rooms.EMPTY
    {
      rooms, sids, views, cleaned, draining, roster := map[], map[], map[], {}, {}, {};
    }

    /** `Adapter.add` */
    method Add(sid: Rooms.Sid, room: Rooms.Room)
      modifies this`rooms, this`sids
      ensures Now() == Rooms.Add(old(Now()), sid, room)
    {
      var members := if room in rooms then rooms[room] else {};
      rooms := rooms[room := members + {sid}];
      var joined := if sid in sids then sids[sid] else {};
      sids := sids[sid := joined + {room}];
    }

    /** `Adapter.del`: a room key goes with its last member. */
    method Del(sid: Rooms.Sid, room: Rooms.Room)
      modifies this`rooms, this`sids
      ensures Now() == Rooms.Del(old(Now()), sid, room)
    {
      if room in rooms {
        rooms := rooms[room := rooms[room] - {sid}];
        if rooms[room] == {} { rooms := rooms - {room}; }
      }
      if sid in sids { sids := sids[sid := sids[sid] - {room}]; }
    }

    /** `ServerSocket.join` */
    method Join(sid: Rooms.Sid, names: seq<Rooms.Room>)
      modifies this`rooms, this`sids, this`views
      ensures Now() == JoinAll(old(Now()), sid, names)
    {
      if sid in cleaned {
        NothingToJoin(Now(), sid, names);
        return;
      }
      var i := 0;
      while i < |names|
        invariant i <= |names|
        invariant JoinAll(Now(), sid, names[i..]) == JoinAll(old(Now()), sid, names)
      {
        assert names[i..][0] == names[i] && names[i..][1..] == names[i + 1..];
        Add(sid, names[i]);
        views := views[sid := (if sid in views then views[sid] else {}) + {names[i]}];
        i := i + 1;
      }
    }

    lemma {:induction false} NothingToJoin(r: Rooms.State, sid: Rooms.Sid, names: seq<Rooms.Room>)
      requires sid in r.cleaned
      ensures JoinAll(r, sid, names) == r
      decreases |names|
    {
      if names != [] { NothingToJoin(r, sid, names[1..]); }
    }

    /** `ServerSocket.leave` */
    method Leave(sid: Rooms.Sid, room: Rooms.Room)
      modifies this`rooms, this`sids, this`views
      ensures Now() == Rooms.Leave(old(Now()), sid, room)
    {
      Del(sid, room);
      views := views[sid := (if sid in views then views[sid] else {}) - {room}];
    }

    /** Admission puts the socket on the roster. */
    method Register(sid: Rooms.Sid)
      modifies this`roster
      ensures Now() == Rooms.Register(old(Now()), sid)
    {
      roster := roster + {sid};
    }

    /** `cleanupMembership` up to the adapter's removal hook; the rooms are visited in any order. */
    method BeginCleanup(sid: Rooms.Sid)
      modifies this`rooms, this`sids, this`cleaned, this`draining
      ensures Now() == Rooms.CleanBegin(old(Now()), sid)
    {
      if sid in cleaned { return; }
      cleaned := cleaned + {sid};
      var view := if sid in views then views[sid] else {};
      var remaining := view;
      PurgeNothing(rooms, sid);
      while remaining != {}
        invariant remaining <= view
        invariant rooms == Rooms.Purge(old(rooms), sid, view - remaining)
        invariant sids - {sid} == old(sids) - {sid}
        invariant cleaned == old(cleaned) + {sid} && draining == old(draining)
        decreases |remaining|
      {
        var room :| room in remaining;
        PurgeOne(old(rooms), sid, view - remaining, room);
        assert view - (remaining - {room}) == view - remaining + {room};
        Del(sid, room);
        remaining := remaining - {room};
      }
      assert view - remaining == view;
      sids := sids - {sid};
      draining := draining + {sid};
    }

    lemma PurgeNothing(index: map<Rooms.Room, set<Rooms.Sid>>, sid: Rooms.Sid)
      ensures Rooms.Purge(index, sid, {}) == index
    {}

    /** Removing the socket from one more room is one more step of the purge. */
    lemma PurgeOne(index: map<Rooms.Room, set<Rooms.Sid>>, sid: Rooms.Sid, done: set<Rooms.Room>, room: Rooms.Room)
      requires room !in done
      ensures Rooms.Without(Rooms.Purge(index, sid, done), sid, room) == Rooms.Purge(index, sid, done + {room})
    {}

    /** The rest of `cleanupMembership`. */
    method EndCleanup(sid: Rooms.Sid)
      modifies this`draining, this`views, this`roster
      ensures Now() == Rooms.CleanEnd(old(Now()), sid)
    {
      if sid !in draining { return; }
      draining := draining - {sid};
      views := views[sid := {}];
      roster := roster - {sid};
    }
  }
}
