/** The game state's own maps and records, changed in place as the source changes them. */
module DrawingGameObject {
  import opened Common
  import G = DrawingGame

  class Game {
    const countdownMs: nat
    var sessions: map<nat, nat>
    var memberships: map<nat, G.Membership>
    var records: seq<G.Record>
    var armed: map<nat, nat>
    var timersMade: nat
    var pendingJoins: seq<G.Action>

    ghost function Now(): G.State
      reads this
    {
      G.State(sessions, memberships, records, armed, timersMade, pendingJoins)
    }

    constructor (ms: nat)
      ensures Now() == G.EMPTY && countdownMs == ms
    {
      countdownMs := ms;
      sessions, memberships, records, armed, timersMade, pendingJoins := map[], map[], [], map[], 0, [];
    }

    method GetSession(room: nat) returns (r: nat)
      modifies this`sessions, this`records
      ensures Now() == G.WithSession(old(Now()), room)
      ensures room in sessions && r == sessions[room]
    {
      if room !in sessions {
        sessions := sessions[room := |records|];
        records := records + [G.NEW_RECORD];
      }
      r := sessions[room];
    }

    /** The participant a membership names, if any. */
    function Seated(room: nat, letter: G.Label): (seat: Option<G.Participant>)
      reads this
      ensures seat == G.Seat(Now(), room, letter)
    {
      if room in sessions && sessions[room] < |records| && letter in records[sessions[room]].players
      then Some(records[sessions[room]].players[letter]) else None
    }

    method Join(socket: nat, hs: G.Handshake, room: nat, wellFormed: bool)
      modifies this
      ensures Now() == G.Join(old(Now()), socket, hs, room, wellFormed)
    {
      if !wellFormed || hs.letter == None { return; }
      if socket in memberships {
        var home := GetSession(memberships[socket].room);
        pendingJoins := pendingJoins + [G.Action(home, None)];
        return;
      }
      var r := GetSession(room);
      var letter := hs.letter.value;
      var occupied := Seated(room, letter);
      if r >= |records| || (occupied.Some? && occupied.value.presence != hs.presence) { return; }
      records := records[r := records[r].(players := records[r].players[letter := G.Participant(socket, hs.presence)])];
      memberships := memberships[socket := G.Membership(room, letter)];
      if occupied.Some? { memberships := memberships - {occupied.value.socket}; }
      pendingJoins := pendingJoins
        + [G.Action(r, if occupied.Some? && occupied.value.socket != socket then Some(occupied.value.socket) else None)];
    }

    method StartRound(r: nat)
      requires r < |records|
      modifies this`records
      ensures Now() == G.StartRound(old(Now()), r)
    {
      if records[r].phase != G.Countdown || |records[r].players| != 3 { return; }
      records := records[r := records[r].(timer := None, endsAt := None, phase := G.Active)];
    }

    method StartCountdown(r: nat, now: int)
      requires r < |records|
      modifies this`records, this`armed, this`timersMade
      ensures Now() == G.StartCountdown(old(Now()), r, countdownMs, now)
    {
      if records[r].phase != G.Waiting || |records[r].players| != 3 { return; }
      records := records[r := records[r].(phase := G.Countdown, endsAt := Some(now + countdownMs))];
      if countdownMs == 0 {
        StartRound(r);
      } else {
        records := records[r := records[r].(timer := Some(timersMade))];
        armed := armed[timersMade := r];
        timersMade := timersMade + 1;
      }
    }

    method Guess(socket: nat, correct: bool)
      modifies this`records
      ensures Now() == G.Guess(old(Now()), socket, correct)
    {
      if socket !in memberships || !correct { return; }
      var m := memberships[socket];
      var seat := Seated(m.room, m.letter);
      if m.letter == G.A || seat == None || seat.value.socket != socket { return; }
      var r := sessions[m.room];
      if records[r].phase != G.Active { return; }
      records := records[r := records[r].(phase := G.Ended, winner := Some(m.letter))];
    }

    method Leave(socket: nat)
      modifies this
      ensures Now() == G.Leave(old(Now()), socket)
    {
      if socket !in memberships { return; }
      var m := memberships[socket];
      memberships := memberships - {socket};
      var seat := Seated(m.room, m.letter);
      if seat == None || seat.value.socket != socket { return; }
      var r := sessions[m.room];
      records := records[r := records[r].(players := records[r].players - {m.letter})];
      Vacated(m.room, r);
    }

    /** What remains to be done once a seat of `room` has been given up. */
    method Vacated(room: nat, r: nat)
      requires r < |records|
      modifies this
      ensures Now() == G.Vacated(old(Now()), room, r)
    {
      var timer := records[r].timer;
      if |records[r].players| == 0 {
        if timer.Some? { armed := armed - {timer.value}; }
        sessions := sessions - {room};
      } else if records[r].phase == G.Countdown {
        if timer.Some? { armed := armed - {timer.value}; }
        records := records[r := records[r].(timer := None, endsAt := None, phase := G.Waiting)];
      }
    }

    method Joined(action: G.Action, stillConnected: bool, now: int)
      modifies this
      ensures Now() == G.Joined(old(Now()), action, stillConnected, countdownMs, now)
    {
      if action.replaced.Some? && stillConnected { Leave(action.replaced.value); }
      if action.record < |records| { StartCountdown(action.record, now); }
    }
  }
}
