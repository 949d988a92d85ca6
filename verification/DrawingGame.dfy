/**
  Seats, memberships and phases of the drawing game. Session records are objects that
  timers and pending joins keep hold of, so they are numbered; a record that is no longer
  the session of its room stays in the table.
 */
module DrawingGame {
  import opened Common

  datatype Label = A | B | C

  datatype Phase = Waiting | Countdown | Active | Ended

  /** What a socket's handshake says about it. */
  datatype Handshake = Handshake(letter: Option<Label>, presence: nat)

  datatype Participant = Participant(socket: nat, presence: nat)

  datatype Record = Record(
    phase: Phase,
    players: map<Label, Participant>,
    timer: Option<nat>,
    endsAt: Option<int>,
    winner: Option<Label>)

  datatype Membership = Membership(room: nat, letter: Label)

  /** An accepted join whose `joined` still has to run: the room join is awaited in between. */
  datatype Action = Action(record: nat, replaced: Option<nat>)

  datatype State = State(
    sessions: map<nat, nat>,
    memberships: map<nat, Membership>,
    records: seq<Record>,
    armed: map<nat, nat>,     // timers and the records they will start
    timersMade: nat,
    pendingJoins: seq<Action>)

  const EMPTY := State(map[], map[], [], map[], 0, [])

  const NEW_RECORD := Record(Waiting, map[], None, None, None)

  /** `getSession` */
  function WithSession(s: State, room: nat): State {
    if room in s.sessions then s
    else s.(sessions := s.sessions[room := |s.records|], records := s.records + [NEW_RECORD])
  }

  function SetRecord(s: State, r: nat, record: Record): State
    requires r < |s.records|
  {
    s.(records := s.records[r := record])
  }

  /** Who sits in a room with a label. */
  function SeatIn(sessions: map<nat, nat>, records: seq<Record>, room: nat, letter: Label): Option<Participant> {
    if room in sessions && sessions[room] < |records| && letter in records[sessions[room]].players
    then Some(records[sessions[room]].players[letter]) else None
  }

  function Seat(s: State, room: nat, letter: Label): Option<Participant> {
    SeatIn(s.sessions, s.records, room, letter)
  }

  /** `join`, in a room whose name is well formed or not. */
  function Join(s: State, socket: nat, hs: Handshake, room: nat, wellFormed: bool): State {
    if !wellFormed || hs.letter == None then s
    else if socket in s.memberships then
      var p := WithSession(s, s.memberships[socket].room);
      p.(pendingJoins := p.pendingJoins + [Action(p.sessions[s.memberships[socket].room], None)])
    else
      var p := WithSession(s, room);
      var r := p.sessions[room];
      var letter := hs.letter.value;
      var occupied := Seat(p, room, letter);
      if r >= |p.records| || (occupied.Some? && occupied.value.presence != hs.presence) then p
      else
        var q := SetRecord(p, r, p.records[r].(players := p.records[r].players[letter := Participant(socket, hs.presence)]));
        var members := q.memberships[socket := Membership(room, letter)];
        q.(memberships := if occupied.Some? then members - {occupied.value.socket} else members,
           pendingJoins := q.pendingJoins
             + [Action(r, if occupied.Some? && occupied.value.socket != socket then Some(occupied.value.socket) else None)])
  }

  function StartRound(s: State, r: nat): State
    requires r < |s.records|
  {
    var record := s.records[r];
    if record.phase != Countdown || |record.players| != 3 then s
    else SetRecord(s, r, record.(phase := Active, timer := None, endsAt := None))
  }

  function StartCountdown(s: State, r: nat, countdownMs: nat, now: int): State
    requires r < |s.records|
  {
    var record := s.records[r];
    if record.phase != Waiting || |record.players| != 3 then s
    else
      var p := SetRecord(s, r, record.(phase := Countdown, endsAt := Some(now + countdownMs)));
      if countdownMs == 0 then StartRound(p, r)
      else
        SetRecord(p, r, p.records[r].(timer := Some(s.timersMade))).(
          armed := s.armed[s.timersMade := r], timersMade := s.timersMade + 1)
  }

  function ClearTimer(s: State, timer: Option<nat>): State {
    if timer.Some? then s.(armed := s.armed - {timer.value}) else s
  }

  /** A seat of `room` has just been given up: the last one ends the session, any other a countdown. */
  function Vacated(s: State, room: nat, r: nat): State
    requires r < |s.records|
  {
    var record := s.records[r];
    if |record.players| == 0 then ClearTimer(s, record.timer).(sessions := s.sessions - {room})
    else if record.phase == Countdown then
      SetRecord(ClearTimer(s, record.timer), r, record.(timer := None, endsAt := None, phase := Waiting))
    else s
  }

  /** `disconnect` of the game state and of the application. */
  function Leave(s: State, socket: nat): State {
    if socket !in s.memberships then s
    else
      var m := s.memberships[socket];
      var p := s.(memberships := s.memberships - {socket});
      if Seat(p, m.room, m.letter).None? || Seat(p, m.room, m.letter).value.socket != socket then p
      else
        var r := p.sessions[m.room];
        Vacated(SetRecord(p, r, p.records[r].(players := p.records[r].players - {m.letter})), m.room, r)
  }

  /** `joined`: a replaced socket that is still connected is disconnected first. */
  function Joined(s: State, action: Action, stillConnected: bool, countdownMs: nat, now: int): State {
    var p := if action.replaced.Some? && stillConnected then Leave(s, action.replaced.value) else s;
    if action.record < |p.records| then StartCountdown(p, action.record, countdownMs, now) else p
  }

  /** A guess counts only from a seated guesser while the round is active. */
  function Guess(s: State, socket: nat, correct: bool): State {
    if socket !in s.memberships then s
    else
      var m := s.memberships[socket];
      if !correct || m.letter == A || Seat(s, m.room, m.letter).None? || Seat(s, m.room, m.letter).value.socket != socket
         || s.records[s.sessions[m.room]].phase != Active then s
      else SetRecord(s, s.sessions[m.room], s.records[s.sessions[m.room]].(phase := Ended, winner := Some(m.letter)))
  }

  datatype Event =
    | JoinEvent(socket: nat, room: nat, wellFormed: bool)
    | JoinedEvent(index: nat, stillConnected: bool, now: int)
    | GuessEvent(socket: nat, correct: bool)
    | LeaveEvent(socket: nat)
    | TimerEvent(timer: nat)

  function Step(s: State, who: nat -> Handshake, countdownMs: nat, e: Event): State {
    match e
    case JoinEvent(socket, room, wellFormed) => Join(s, socket, who(socket), room, wellFormed)
    case JoinedEvent(i, stillConnected, now) =>
      if i >= |s.pendingJoins| then s
      else Joined(s.(pendingJoins := s.pendingJoins[..i] + s.pendingJoins[i + 1..]), s.pendingJoins[i],
                  stillConnected, countdownMs, now)
    case GuessEvent(socket, correct) => Guess(s, socket, correct)
    case LeaveEvent(socket) => Leave(s, socket)
    case TimerEvent(t) =>
      if t !in s.armed then s
      else
        var p := s.(armed := s.armed - {t});
        if s.armed[t] < |p.records| then StartRound(p, s.armed[t]) else p
  }

  function Run(s: State, who: nat -> Handshake, countdownMs: nat, events: seq<Event>): State
    decreases |events|
  {
    if events == [] then s else Run(Step(s, who, countdownMs, events[0]), who, countdownMs, events[1..])
  }

  // What always holds.

  ghost predicate SessionIds(sessions: map<nat, nat>, records: nat) {
    && (forall room :: room in sessions ==> sessions[room] < records)
    && (forall room, other :: room in sessions && other in sessions && sessions[room] == sessions[other] ==> room == other)
  }

  /** No stored session is empty. */
  ghost predicate Filled(sessions: map<nat, nat>, records: seq<Record>) {
    forall room :: room in sessions && sessions[room] < |records| ==> |records[sessions[room]].players| > 0
  }

  /** A socket is a member of a room with a label exactly if it sits there. */
  ghost predicate Inverse(sessions: map<nat, nat>, records: seq<Record>, memberships: map<nat, Membership>) {
    && (forall socket :: socket in memberships ==>
          var seat := SeatIn(sessions, records, memberships[socket].room, memberships[socket].letter);
          seat.Some? && seat.value.socket == socket)
    && (forall room, letter :: SeatIn(sessions, records, room, letter).Some? ==>
          var socket := SeatIn(sessions, records, room, letter).value.socket;
          socket in memberships && memberships[socket] == Membership(room, letter))
  }

  ghost predicate PhaseOk(record: Record, r: nat, armed: map<nat, nat>, countdownMs: nat) {
    && (record.phase == Countdown ==>
          && |record.players| == 3 && record.endsAt.Some? && countdownMs > 0
          && record.timer.Some? && record.timer.value in armed && armed[record.timer.value] == r)
    && (record.phase != Countdown ==> record.timer == None && record.endsAt == None)
    && (record.winner.Some? <==> record.phase == Ended)
    && record.winner != Some(A)
  }

  ghost predicate Phases(records: seq<Record>, armed: map<nat, nat>, countdownMs: nat) {
    forall r :: 0 <= r < |records| ==> PhaseOk(records[r], r, armed, countdownMs)
  }

  ghost predicate Timers(armed: map<nat, nat>, made: nat, records: seq<Record>) {
    forall t :: t in armed ==> t < made && armed[t] < |records| && records[armed[t]].timer == Some(t)
  }

  ghost predicate Actions(actions: seq<Action>, records: nat) {
    forall i :: 0 <= i < |actions| ==> actions[i].record < records
  }

  ghost predicate Sound(s: State, countdownMs: nat) {
    && SessionIds(s.sessions, |s.records|) && Filled(s.sessions, s.records)
    && Inverse(s.sessions, s.records, s.memberships)
    && Phases(s.records, s.armed, countdownMs) && Timers(s.armed, s.timersMade, s.records)
    && Actions(s.pendingJoins, |s.records|)
  }
}
