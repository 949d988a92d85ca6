/** Seats, memberships and phases of the drawing game in every run. */
module DrawingGameRuns {
  import opened Common
  import opened DrawingGame

  lemma ThreeSeats(players: map<Label, Participant>)
    ensures |players| == 3 <==> players.Keys == {A, B, C}
  {
    var all := {A, B, C};
    forall letter | letter in players.Keys ensures letter in all {
      assert letter == A || letter == B || letter == C;
    }
    assert |all| == 3;
    if |players| == 3 && players.Keys != all {
      var missing :| missing in all - players.Keys;
      SubsetSize(players.Keys, all - {missing});
    }
    assert |players| == |players.Keys|;
  }

  // Seats.

  /** One seat of one session is taken or given up. */
  function Reseat(records: seq<Record>, r: nat, letter: Label, who: Option<Participant>): seq<Record>
    requires r < |records|
  {
    records[r := records[r].(players := if who.Some? then records[r].players[letter := who.value]
                                        else records[r].players - {letter})]
  }

  lemma ReseatSeats(sessions: map<nat, nat>, records: seq<Record>, room: nat, letter: Label, who: Option<Participant>)
    requires SessionIds(sessions, |records|) && room in sessions
    ensures forall other, l ::
              SeatIn(sessions, Reseat(records, sessions[room], letter, who), other, l) ==
              if other == room && l == letter then who else SeatIn(sessions, records, other, l)
  {}

  /** The seats of a room that has just been given a new, empty session. */
  lemma NewSessionSeats(sessions: map<nat, nat>, records: seq<Record>, room: nat)
    requires SessionIds(sessions, |records|) && room !in sessions
    ensures var more := sessions[room := |records|];
            && SessionIds(more, |records| + 1)
            && forall other, l :: SeatIn(more, records + [NEW_RECORD], other, l) == SeatIn(sessions, records, other, l)
  {}

  lemma TakenInverse(sessions: map<nat, nat>, records: seq<Record>, memberships: map<nat, Membership>,
                     room: nat, letter: Label, p: Participant)
    requires SessionIds(sessions, |records|) && room in sessions && Inverse(sessions, records, memberships)
    requires p.socket !in memberships
    ensures var occupied := SeatIn(sessions, records, room, letter);
            var members := memberships[p.socket := Membership(room, letter)];
            Inverse(sessions, Reseat(records, sessions[room], letter, Some(p)),
                    if occupied.Some? then members - {occupied.value.socket} else members)
  {
    ReseatSeats(sessions, records, room, letter, Some(p));
    hide SeatIn, Reseat, SessionIds;
  }

  lemma LeftInverse(sessions: map<nat, nat>, records: seq<Record>, memberships: map<nat, Membership>, socket: nat)
    requires SessionIds(sessions, |records|) && Inverse(sessions, records, memberships) && socket in memberships
    requires memberships[socket].room in sessions
    ensures var m := memberships[socket];
            Inverse(sessions, Reseat(records, sessions[m.room], m.letter, None), memberships - {socket})
  {
    ReseatSeats(sessions, records, memberships[socket].room, memberships[socket].letter, None);
    hide SeatIn, Reseat, SessionIds;
  }

  lemma TakenFilled(sessions: map<nat, nat>, records: seq<Record>, room: nat, letter: Label, p: Participant)
    requires SessionIds(sessions, |records|) && room in sessions && Filled(sessions - {room}, records)
    ensures Filled(sessions, Reseat(records, sessions[room], letter, Some(p)))
  {
    var next := Reseat(records, sessions[room], letter, Some(p));
    forall other | other in sessions && sessions[other] < |next| ensures |next[sessions[other]].players| > 0 {
      if other != room { assert other in sessions - {room}; } else { assert letter in next[sessions[room]].players; }
    }
  }

  lemma TakenSize(players: map<Label, Participant>, letter: Label, p: Participant)
    ensures |players| == 3 ==> |players[letter := p]| == 3
  {
    ThreeSeats(players);
    ThreeSeats(players[letter := p]);
    if |players| == 3 {
      assert letter == A || letter == B || letter == C;
      assert players[letter := p].Keys == players.Keys;
    }
  }

  lemma TakenPhases(records: seq<Record>, armed: map<nat, nat>, made: nat, ms: nat, r: nat, letter: Label, p: Participant)
    requires Phases(records, armed, ms) && Timers(armed, made, records) && r < |records|
    ensures var next := Reseat(records, r, letter, Some(p)); Phases(next, armed, ms) && Timers(armed, made, next)
  {
    TakenSize(records[r].players, letter, p);
  }

  lemma NewRecordPhases(records: seq<Record>, armed: map<nat, nat>, made: nat, ms: nat)
    requires Phases(records, armed, ms) && Timers(armed, made, records)
    ensures Phases(records + [NEW_RECORD], armed, ms) && Timers(armed, made, records + [NEW_RECORD])
  {}

  // Joining.

  /** The state in which a new seat is about to be taken: its session may be new and still empty. */
  ghost predicate Ready(s: State, room: nat, ms: nat) {
    && room in s.sessions && SessionIds(s.sessions, |s.records|) && Filled(s.sessions - {room}, s.records)
    && Inverse(s.sessions, s.records, s.memberships)
    && Phases(s.records, s.armed, ms) && Timers(s.armed, s.timersMade, s.records) && Actions(s.pendingJoins, |s.records|)
  }

  lemma SessionReady(s: State, room: nat, ms: nat)
    requires Sound(s, ms)
    ensures Ready(WithSession(s, room), room, ms)
    ensures WithSession(s, room).memberships == s.memberships
    ensures forall letter :: Seat(WithSession(s, room), room, letter) == Seat(s, room, letter)
    ensures room in s.sessions ==> WithSession(s, room) == s
  {
    hide Timers, Phases, SeatIn;
    if room !in s.sessions {
      NewSessionSeats(s.sessions, s.records, room);
      NewRecordPhases(s.records, s.armed, s.timersMade, ms);
      NewSessionFilled(s.sessions, s.records, room);
    }
  }

  lemma NewSessionFilled(sessions: map<nat, nat>, records: seq<Record>, room: nat)
    requires SessionIds(sessions, |records|) && Filled(sessions, records) && room !in sessions
    ensures Filled(sessions[room := |records|] - {room}, records + [NEW_RECORD])
  {}

  function Seated(p: State, room: nat, letter: Label, who: Participant): State
    requires room in p.sessions && p.sessions[room] < |p.records|
  {
    var occupied := Seat(p, room, letter);
    var members := p.memberships[who.socket := Membership(room, letter)];
    p.(records := Reseat(p.records, p.sessions[room], letter, Some(who)),
       memberships := if occupied.Some? then members - {occupied.value.socket} else members)
  }

  lemma SeatedSound(p: State, room: nat, letter: Label, who: Participant, ms: nat)
    requires Ready(p, room, ms) && who.socket !in p.memberships && p.sessions[room] < |p.records|
    ensures Sound(Seated(p, room, letter, who), ms)
  {
    TakenInverse(p.sessions, p.records, p.memberships, room, letter, who);
    TakenFilled(p.sessions, p.records, room, letter, who);
    TakenPhases(p.records, p.armed, p.timersMade, ms, p.sessions[room], letter, who);
    hide SeatIn, Phases, Timers, Filled, Inverse, SessionIds;
  }

  lemma ActionsSound(s: State, actions: seq<Action>, ms: nat)
    requires Sound(s, ms) && Actions(actions, |s.records|)
    ensures Sound(s.(pendingJoins := actions), ms)
  {
    hide SeatIn, Phases, Timers, Filled, Inverse, SessionIds, Actions;
  }

  lemma JoinShape(s: State, socket: nat, hs: Handshake, room: nat)
    requires hs.letter.Some? && socket !in s.memberships
    ensures var p := WithSession(s, room);
            var q := Join(s, socket, hs, room, true);
            && room in p.sessions
            && (p.sessions[room] < |p.records| ==>
                  var seat := Seat(p, room, hs.letter.value);
                  if seat.Some? && seat.value.presence != hs.presence then q == p
                  else && q == Seated(p, room, hs.letter.value, Participant(socket, hs.presence)).(pendingJoins := q.pendingJoins)
                       && |q.pendingJoins| == |p.pendingJoins| + 1 && q.pendingJoins[..|p.pendingJoins|] == p.pendingJoins
                       && q.pendingJoins[|p.pendingJoins|].record == p.sessions[room])
  {
    hide SeatIn;
  }

  lemma ReadyIds(s: State, room: nat, ms: nat)
    requires Ready(s, room, ms)
    ensures s.sessions[room] < |s.records|
  {}

  lemma NewJoinSound(s: State, socket: nat, hs: Handshake, room: nat, ms: nat)
    requires Sound(s, ms) && hs.letter.Some? && socket !in s.memberships
    ensures Sound(Join(s, socket, hs, room, true), ms)
  {
    hide Join, WithSession, SeatIn, Phases, Timers, Filled, Inverse, SessionIds;
    var p := WithSession(s, room);
    var q := Join(s, socket, hs, room, true);
    SessionReady(s, room, ms);
    ReadyIds(p, room, ms);
    JoinShape(s, socket, hs, room);
    SeatNeedsSession(s, room, hs.letter.value);
    var seat := Seat(p, room, hs.letter.value);
    if !(seat.Some? && seat.value.presence != hs.presence) {
      var who := Participant(socket, hs.presence);
      SeatedSound(p, room, hs.letter.value, who, ms);
      ActionsSound(Seated(p, room, hs.letter.value, who), q.pendingJoins, ms);
    }
  }

  lemma SeatNeedsSession(s: State, room: nat, letter: Label)
    ensures Seat(s, room, letter).Some? ==> room in s.sessions
  {}

  lemma JoinSound(s: State, socket: nat, hs: Handshake, room: nat, wellFormed: bool, ms: nat)
    requires Sound(s, ms)
    ensures Sound(Join(s, socket, hs, room, wellFormed), ms)
  {
    if wellFormed && hs.letter.Some? {
      if socket in s.memberships {
        var home := s.memberships[socket].room;
        assert home in s.sessions;
        var q := Join(s, socket, hs, room, wellFormed);
        assert q == s.(pendingJoins := s.pendingJoins + [Action(s.sessions[home], None)]);
        ActionsSound(s, q.pendingJoins, ms);
      } else {
        hide Sound;
        NewJoinSound(s, socket, hs, room, ms);
      }
    }
  }

  // Phases.

  /** A record's phase, timer, end and winner change, but nobody moves. */
  lemma PhaseStep(s: State, r: nat, record: Record, armed: map<nat, nat>, made: nat, ms: nat)
    requires Sound(s, ms) && r < |s.records| && record.players == s.records[r].players
    requires var records := s.records[r := record]; Phases(records, armed, ms) && Timers(armed, made, records)
    ensures Sound(SetRecord(s, r, record).(armed := armed, timersMade := made), ms)
  {
    var records := s.records[r := record];
    SameSeats(s.sessions, s.records, records, s.memberships);
    hide SeatIn, Phases, Timers, Inverse;
  }

  /** Where nobody moves, seats and memberships stay inverse. */
  lemma SameSeats(sessions: map<nat, nat>, records: seq<Record>, next: seq<Record>, memberships: map<nat, Membership>)
    requires |next| == |records| && forall r :: 0 <= r < |records| ==> next[r].players == records[r].players
    ensures Inverse(sessions, records, memberships) ==> Inverse(sessions, next, memberships)
  {
    forall room, letter ensures SeatIn(sessions, next, room, letter) == SeatIn(sessions, records, room, letter) {}
    hide SeatIn;
  }

  lemma RoundPhases(records: seq<Record>, armed: map<nat, nat>, made: nat, ms: nat, t: nat)
    requires Phases(records, armed, ms) && Timers(armed, made, records) && t in armed
    ensures armed[t] < |records| && records[armed[t]].phase == Countdown && |records[armed[t]].players| == 3
    ensures var next := records[armed[t] := records[armed[t]].(phase := Active, timer := None, endsAt := None)];
            Phases(next, armed - {t}, ms) && Timers(armed - {t}, made, next)
  {
    assert PhaseOk(records[armed[t]], armed[t], armed, ms);
  }

  lemma TimerSound(s: State, t: nat, ms: nat)
    requires Sound(s, ms) && t in s.armed
    ensures s.armed[t] < |s.records| && Sound(StartRound(s.(armed := s.armed - {t}), s.armed[t]), ms)
  {
    RoundPhases(s.records, s.armed, s.timersMade, ms, t);
    hide SeatIn, Phases, Timers, Filled, Inverse, SessionIds;
    var r := s.armed[t];
    PhaseStep(s, r, s.records[r].(phase := Active, timer := None, endsAt := None), s.armed - {t}, s.timersMade, ms);
  }

  lemma CountdownPhases(records: seq<Record>, armed: map<nat, nat>, made: nat, ms: nat, r: nat, ends: int)
    requires Phases(records, armed, ms) && Timers(armed, made, records) && r < |records|
    requires records[r].phase == Waiting && |records[r].players| == 3
    ensures ms > 0 ==>
              var next := records[r := records[r].(phase := Countdown, endsAt := Some(ends), timer := Some(made))];
              Phases(next, armed[made := r], ms) && Timers(armed[made := r], made + 1, next)
    ensures var next := records[r := records[r].(phase := Active, endsAt := None, timer := None)];
            Phases(next, armed, ms) && Timers(armed, made, next)
  {
    assert PhaseOk(records[r], r, armed, ms);
  }

  lemma CountdownSound(s: State, r: nat, ms: nat, now: int)
    requires Sound(s, ms) && r < |s.records|
    ensures Sound(StartCountdown(s, r, ms, now), ms)
  {
    hide SeatIn, Phases, Timers, Filled, Inverse, SessionIds;
    var record := s.records[r];
    if record.phase == Waiting && |record.players| == 3 {
      CountdownPhases(s.records, s.armed, s.timersMade, ms, r, now + ms);
      var begun := s.records[r := record.(phase := Countdown, endsAt := Some(now + ms))];
      if ms > 0 {
        var last := record.(phase := Countdown, endsAt := Some(now + ms), timer := Some(s.timersMade));
        assert begun[r := last] == s.records[r := last];
        PhaseStep(s, r, last, s.armed[s.timersMade := r], s.timersMade + 1, ms);
      } else {
        var last := record.(phase := Active, endsAt := None, timer := None);
        assert begun[r := last] == s.records[r := last];
        PhaseStep(s, r, last, s.armed, s.timersMade, ms);
      }
    }
  }

  lemma EndedPhases(records: seq<Record>, armed: map<nat, nat>, made: nat, ms: nat, r: nat, letter: Label)
    requires Phases(records, armed, ms) && Timers(armed, made, records) && r < |records| && records[r].phase == Active && letter != A
    ensures var next := records[r := records[r].(phase := Ended, winner := Some(letter))];
            Phases(next, armed, ms) && Timers(armed, made, next)
  {
    assert PhaseOk(records[r], r, armed, ms);
  }

  lemma GuessSound(s: State, socket: nat, correct: bool, ms: nat)
    requires Sound(s, ms)
    ensures Sound(Guess(s, socket, correct), ms)
  {
    var q := Guess(s, socket, correct);
    if q != s {
      var m := s.memberships[socket];
      var r := s.sessions[m.room];
      EndedPhases(s.records, s.armed, s.timersMade, ms, r, m.letter);
      var record := s.records[r].(phase := Ended, winner := Some(m.letter));
      assert q == SetRecord(s, r, record).(armed := s.armed, timersMade := s.timersMade);
      assert record.players == s.records[r].players;
      hide SeatIn, Phases, Timers, Filled, Inverse, SessionIds, Actions, Guess;
      PhaseStep(s, r, record, s.armed, s.timersMade, ms);
    }
  }

  // Leaving.

  /** The records and armed timers after a seat has been given up. */
  lemma LeftPhases(records: seq<Record>, armed: map<nat, nat>, made: nat, ms: nat, r: nat, letter: Label)
    requires Phases(records, armed, ms) && Timers(armed, made, records) && r < |records| && letter in records[r].players
    ensures var next := Reseat(records, r, letter, None);
            if records[r].phase == Countdown then
              && records[r].timer.Some? && |next[r].players| > 0
              && var reset := next[r := next[r].(timer := None, endsAt := None, phase := Waiting)];
                 Phases(reset, armed - {records[r].timer.value}, ms) && Timers(armed - {records[r].timer.value}, made, reset)
            else records[r].timer == None && Phases(next, armed, ms) && Timers(armed, made, next)
  {
    assert PhaseOk(records[r], r, armed, ms);
    if records[r].phase == Countdown {
      ThreeSeats(records[r].players);
      var other := if letter == A then B else A;
      assert other in (records[r].players - {letter});
    }
  }

  lemma LeftFilled(sessions: map<nat, nat>, records: seq<Record>, room: nat, letter: Label)
    requires SessionIds(sessions, |records|) && Filled(sessions, records) && room in sessions
    ensures var next := Reseat(records, sessions[room], letter, None);
            && Filled(sessions - {room}, next)
            && (|next[sessions[room]].players| > 0 ==> Filled(sessions, next))
  {}

  lemma ClosedInverse(sessions: map<nat, nat>, records: seq<Record>, memberships: map<nat, Membership>, room: nat)
    requires SessionIds(sessions, |records|) && Inverse(sessions, records, memberships) && room in sessions
    requires |records[sessions[room]].players| == 0
    ensures SessionIds(sessions - {room}, |records|) && Inverse(sessions - {room}, records, memberships)
  {
    assert records[sessions[room]].players == map[];
    forall other, letter ensures SeatIn(sessions - {room}, records, other, letter) == SeatIn(sessions, records, other, letter) {}
    hide SeatIn;
  }

  /** The state right after the seat has been given up. */
  function Vacated(s: State, socket: nat): State
    requires socket in s.memberships && s.memberships[socket].room in s.sessions
    requires s.sessions[s.memberships[socket].room] < |s.records|
  {
    var m := s.memberships[socket];
    s.(memberships := s.memberships - {socket}, records := Reseat(s.records, s.sessions[m.room], m.letter, None))
  }

  lemma LeaveShape(s: State, socket: nat)
    requires socket in s.memberships && s.memberships[socket].room in s.sessions
    requires s.sessions[s.memberships[socket].room] < |s.records|
    requires var m := s.memberships[socket]; Seat(s, m.room, m.letter).Some? && Seat(s, m.room, m.letter).value.socket == socket
    ensures var m := s.memberships[socket];
            var r := s.sessions[m.room];
            var v := Vacated(s, socket);
            var record := v.records[r];
            Leave(s, socket) ==
              if |record.players| == 0 then ClearTimer(v, record.timer).(sessions := v.sessions - {m.room})
              else if record.phase == Countdown then
                SetRecord(ClearTimer(v, record.timer), r, record.(timer := None, endsAt := None, phase := Waiting))
              else v
  {}

  lemma Member(s: State, socket: nat, ms: nat)
    requires Sound(s, ms) && socket in s.memberships
    ensures var m := s.memberships[socket];
            && m.room in s.sessions && s.sessions[m.room] < |s.records|
            && m.letter in s.records[s.sessions[m.room]].players
            && Seat(s, m.room, m.letter).Some? && Seat(s, m.room, m.letter).value.socket == socket
  {
    hide Phases, Timers, Filled, Actions;
  }

  lemma LeaveSound(s: State, socket: nat, ms: nat)
    requires Sound(s, ms)
    ensures Sound(Leave(s, socket), ms)
  {
    if socket in s.memberships {
      Member(s, socket, ms);
      LeaveShape(s, socket);
      var m := s.memberships[socket];
      var r := s.sessions[m.room];
      var v := Vacated(s, socket);
      LeftInverse(s.sessions, s.records, s.memberships, socket);
      LeftPhases(s.records, s.armed, s.timersMade, ms, r, m.letter);
      LeftFilled(s.sessions, s.records, m.room, m.letter);
      if |v.records[r].players| == 0 { ClosedInverse(v.sessions, v.records, v.memberships, m.room); }
      hide SeatIn, Phases, Timers, Filled, Inverse, SessionIds, Leave, Actions;
      if |v.records[r].players| > 0 && v.records[r].phase == Countdown { ResetInverse(v, r); }
    }
  }

  lemma ResetInverse(v: State, r: nat)
    requires r < |v.records|
    ensures var reset := v.records[r := v.records[r].(timer := None, endsAt := None, phase := Waiting)];
            && (Inverse(v.sessions, v.records, v.memberships) ==> Inverse(v.sessions, reset, v.memberships))
            && (Filled(v.sessions, v.records) ==> Filled(v.sessions, reset))
  {
    var reset := v.records[r := v.records[r].(timer := None, endsAt := None, phase := Waiting)];
    forall room, letter ensures SeatIn(v.sessions, reset, room, letter) == SeatIn(v.sessions, v.records, room, letter) {}
    hide SeatIn;
  }

  // Steps and runs.

  lemma StepSound(s: State, who: nat -> Handshake, ms: nat, e: Event)
    requires Sound(s, ms)
    ensures Sound(Step(s, who, ms, e), ms)
  {
    hide Sound, Join, Leave, Guess, Joined, StartRound;
    match e {
      case JoinEvent(socket, room, wellFormed) => JoinSound(s, socket, who(socket), room, wellFormed, ms);
      case JoinedEvent(i, stillConnected, now) => if i < |s.pendingJoins| { JoinedSound(s, i, stillConnected, ms, now); }
      case GuessEvent(socket, correct) => GuessSound(s, socket, correct, ms);
      case LeaveEvent(socket) => LeaveSound(s, socket, ms);
      case TimerEvent(t) => if t in s.armed { TimerSound(s, t, ms); }
    }
  }

  lemma LeaveLength(s: State, socket: nat)
    ensures |Leave(s, socket).records| == |s.records|
  {}

  lemma JoinedSound(s: State, i: nat, stillConnected: bool, ms: nat, now: int)
    requires Sound(s, ms) && i < |s.pendingJoins|
    ensures Sound(Joined(s.(pendingJoins := s.pendingJoins[..i] + s.pendingJoins[i + 1..]), s.pendingJoins[i],
                         stillConnected, ms, now), ms)
  {
    hide SeatIn, Phases, Timers, Filled, Inverse, SessionIds, Leave, StartCountdown;
    var rest := s.pendingJoins[..i] + s.pendingJoins[i + 1..];
    var p := s.(pendingJoins := rest);
    var action := s.pendingJoins[i];
    ActionsSound(s, rest, ms);
    var q := if action.replaced.Some? && stillConnected then Leave(p, action.replaced.value) else p;
    if action.replaced.Some? && stillConnected {
      LeaveSound(p, action.replaced.value, ms);
      LeaveLength(p, action.replaced.value);
    }
    CountdownSound(q, action.record, ms, now);
  }

  lemma {:induction false} RunSound(s: State, who: nat -> Handshake, ms: nat, events: seq<Event>)
    requires Sound(s, ms)
    ensures Sound(Run(s, who, ms, events), ms)
    decreases |events|
  {
    hide Sound, Step;
    if events != [] {
      StepSound(s, who, ms, events[0]);
      RunSound(Step(s, who, ms, events[0]), who, ms, events[1..]);
    }
  }

  lemma Reached(who: nat -> Handshake, ms: nat, events: seq<Event>)
    ensures Sound(Run(EMPTY, who, ms, events), ms)
  {
    RunSound(EMPTY, who, ms, events);
  }

  /**
    In every run a socket is a member exactly where it sits, whatever joins, same-presence
    replacements and departures there were, and every stored session has a player.
   */
  lemma SeatsAndMembershipsAreInverse(who: nat -> Handshake, ms: nat, events: seq<Event>, socket: nat, room: nat, letter: Label)
    ensures var s := Run(EMPTY, who, ms, events);
            && (socket in s.memberships && s.memberships[socket] == Membership(room, letter) <==>
                  Seat(s, room, letter).Some? && Seat(s, room, letter).value.socket == socket)
            && (room in s.sessions ==> exists l :: Seat(s, room, l).Some?)
  {
    hide Run;
    Reached(who, ms, events);
    var s := Run(EMPTY, who, ms, events);
    if room in s.sessions {
      var players := s.records[s.sessions[room]].players;
      assert players.Keys != {} by { assert |players.Keys| == |players|; }
      var l :| l in players.Keys;
      assert Seat(s, room, l).Some?;
    }
    hide Phases, Timers, Actions;
  }

  /**
    A countdown runs only with all three seats taken and its own timer armed, so only
    when there is time to count; the winner is known exactly once the round has ended,
    and is never the drawer.
   */
  lemma PhasesFit(who: nat -> Handshake, ms: nat, events: seq<Event>, r: nat)
    requires r < |Run(EMPTY, who, ms, events).records|
    ensures var s := Run(EMPTY, who, ms, events);
            var record := s.records[r];
            && (record.phase == Countdown <==> record.timer.Some?)
            && (record.phase == Countdown ==>
                  ms > 0 && record.players.Keys == {A, B, C}
                  && record.timer.value in s.armed && s.armed[record.timer.value] == r)
            && (record.winner.Some? <==> record.phase == Ended)
            && record.winner != Some(A)
  {
    hide Run;
    Reached(who, ms, events);
    var s := Run(EMPTY, who, ms, events);
    assert PhaseOk(s.records[r], r, s.armed, ms);
    ThreeSeats(s.records[r].players);
    hide SeatIn, Inverse, Timers, Filled, SessionIds;
  }

  // The winner is set once.

  ghost predicate WinnersStay(s: State, q: State) {
    && |s.records| <= |q.records|
    && forall r :: 0 <= r < |s.records| && s.records[r].winner.Some? ==> q.records[r].winner == s.records[r].winner
  }

  lemma WinnersStayTrans(s: State, p: State, q: State)
    requires WinnersStay(s, p) && WinnersStay(p, q)
    ensures WinnersStay(s, q)
  {}

  lemma StepWinners(s: State, who: nat -> Handshake, ms: nat, e: Event)
    requires Sound(s, ms)
    ensures WinnersStay(s, Step(s, who, ms, e))
  {
    hide Sound, Join, Leave, Guess, StartCountdown, StartRound, WinnersStay;
    SameWinners(s, s);
    match e {
      case JoinEvent(socket, room, wellFormed) => JoinWinners(s, socket, who(socket), room, wellFormed);
      case JoinedEvent(i, stillConnected, now) =>
        if i < |s.pendingJoins| { JoinedWinners(s, i, stillConnected, ms, now); }
      case GuessEvent(socket, correct) => GuessWinners(s, socket, correct, ms);
      case LeaveEvent(socket) => LeaveWinners(s, socket);
      case TimerEvent(t) =>
        if t in s.armed {
          SameWinners(s, s.(armed := s.armed - {t}));
          if s.armed[t] < |s.records| { RoundWinners(s, s.armed - {t}, s.armed[t], ms, 0); }
        }
    }
  }

  lemma JoinedWinners(s: State, i: nat, stillConnected: bool, ms: nat, now: int)
    requires i < |s.pendingJoins|
    ensures WinnersStay(s, Joined(s.(pendingJoins := s.pendingJoins[..i] + s.pendingJoins[i + 1..]), s.pendingJoins[i],
                                  stillConnected, ms, now))
  {
    hide Leave, StartCountdown, StartRound;
    var p := s.(pendingJoins := s.pendingJoins[..i] + s.pendingJoins[i + 1..]);
    var action := s.pendingJoins[i];
    var q := if action.replaced.Some? && stillConnected then Leave(p, action.replaced.value) else p;
    if action.replaced.Some? { LeaveWinners(p, action.replaced.value); }
    if action.record < |q.records| { RoundWinners(q, q.armed, action.record, ms, now); }
  }

  lemma JoinWinners(s: State, socket: nat, hs: Handshake, room: nat, wellFormed: bool)
    ensures WinnersStay(s, Join(s, socket, hs, room, wellFormed))
  {
    hide SeatIn;
  }

  lemma RoundWinners(s: State, armed: map<nat, nat>, r: nat, ms: nat, now: int)
    requires r < |s.records|
    ensures WinnersStay(s, StartRound(s.(armed := armed), r)) && WinnersStay(s, StartCountdown(s, r, ms, now))
  {}

  /** A guess counts only while the round is active, when there is no winner yet. */
  lemma GuessWinners(s: State, socket: nat, correct: bool, ms: nat)
    requires Sound(s, ms)
    ensures WinnersStay(s, Guess(s, socket, correct))
  {
    var q := Guess(s, socket, correct);
    if q != s {
      var r := s.sessions[s.memberships[socket].room];
      assert PhaseOk(s.records[r], r, s.armed, ms);
    }
    hide SeatIn, Inverse, Timers, Filled, SessionIds;
  }

  lemma LeaveWinners(s: State, socket: nat)
    ensures WinnersStay(s, Leave(s, socket))
  {
    if socket in s.memberships {
      var m := s.memberships[socket];
      if Seat(s, m.room, m.letter).Some? && Seat(s, m.room, m.letter).value.socket == socket {
        LeaveShape(s, socket);
        hide Leave, SeatIn;
      } else {
        hide SeatIn;
      }
    }
  }

  /** Once a round has a winner, the record keeps that winner for the rest of the run. */
  lemma {:induction false} WinnerIsSetOnce(s: State, who: nat -> Handshake, ms: nat, events: seq<Event>)
    requires Sound(s, ms)
    ensures WinnersStay(s, Run(s, who, ms, events))
    decreases |events|
  {
    hide Sound, Step, WinnersStay;
    if events == [] {
      SameWinners(s, s);
    } else {
      StepWinners(s, who, ms, events[0]);
      StepSound(s, who, ms, events[0]);
      WinnerIsSetOnce(Step(s, who, ms, events[0]), who, ms, events[1..]);
      WinnersStayTrans(s, Step(s, who, ms, events[0]), Run(Step(s, who, ms, events[0]), who, ms, events[1..]));
    }
  }

  lemma SameWinners(s: State, q: State)
    requires q.records == s.records
    ensures WinnersStay(s, q)
  {}
}
