/**
  What a client socket sends: the send buffer and its flush, and the callbacks passed to
  `timeout(ms).emit`, for which an answer, a timer and a disconnect race.

  Calls of `emit` are numbered. Observers and callbacks are application code, so what
  follows them is a frame on `stack`; answers and timers come when no frame is left.
  Whether a payload can be encoded is decided when its observers have returned, since it
  stays live until then.
 */
module ClientOutbox {
  type Call = nat

  /** The state of a call's timed callback: the captured `settled` flag and its timer. */
  datatype Timed = Untimed | Open | Settled

  datatype How = Answered | TimedOut | Disconnected

  datatype Ran = Ran(call: Call, how: How)

  datatype Sent = Sent(call: Call, buffered: bool, settled: bool)

  datatype Frame =
    | Observing(call: Call)                // direct send: outgoing observers run
    | Flushing(packets: seq<Call>)         // the same for the first of the packets still to flush
    | Rejecting(rest: seq<Call>)           // callbacks still to be rejected

  datatype State = State(
    connected: bool,
    timed: seq<Timed>,
    armed: set<Call>,
    sendBuffer: seq<Call>,
    pendingAcks: seq<Call>,
    stack: seq<Frame>,
    // History.
    dropped: set<Call>,
    lost: set<Call>,           // not encoded, or in hand when another packet of the flush was not
    sent: seq<Sent>,
    ran: seq<Ran>)

  const IDLE := State(false, [], {}, [], [], [], {}, {}, [], [])

  predicate IsSettled(s: State, k: Call) {
    k < |s.timed| && s.timed[k] == Settled
  }

  function Without(xs: seq<Call>, k: Call): seq<Call> {
    if xs == [] then []
    else if xs[0] == k then xs[1..]
    else [xs[0]] + Without(xs[1..], k)
  }

  /** Every way to settle: the flag, the timer, the cancel handle, the buffer, then the callback. */
  function Settle(s: State, k: Call, how: How): State
    requires k < |s.timed|
  {
    s.(timed := s.timed[k := Settled],
       armed := s.armed - {k},
       pendingAcks := Without(s.pendingAcks, k),
       sendBuffer := Without(s.sendBuffer, k),
       ran := s.ran + [Ran(k, how)])
  }

  /** `trackTimedCallback` */
  function Track(s: State, k: Call): State {
    if k < |s.timed| && s.timed[k] != Untimed && k !in s.pendingAcks then s.(pendingAcks := s.pendingAcks + [k]) else s
  }

  /** `sendEvent` up to the outgoing observers. */
  function Emit(s: State, timed: bool, isVolatile: bool): State {
    var k := |s.timed|;
    var p := s.(timed := s.timed + [if timed then Open else Untimed], armed := if timed then s.armed + {k} else s.armed);
    if isVolatile && !s.connected then p.(dropped := p.dropped + {k})
    else if !s.connected then p.(sendBuffer := p.sendBuffer + [k])
    else
      var q := Track(p, k);
      q.(stack := [Observing(k)] + q.stack)
  }

  function Send(s: State, k: Call, buffered: bool): State {
    s.(sent := s.sent + [Sent(k, buffered, IsSettled(s, k))])
  }

  /** A direct send; one that cannot be encoded throws out of `emit`, and nothing is sent. */
  function SendDirect(s: State, k: Call, encodes: bool): State {
    if encodes then Send(s, k, false) else s.(lost := s.lost + {k})
  }

  /** The flush loop up to the next packet's observers; settled packets are skipped. */
  function FlushFrom(s: State, packets: seq<Call>): State
    decreases |packets|
  {
    if packets == [] then s
    else if IsSettled(s, packets[0]) then FlushFrom(s, packets[1..])
    else
      var q := Track(s, packets[0]);
      q.(stack := [Flushing(packets)] + q.stack)
  }

  function Unsettled(s: State, packets: seq<Call>): seq<Call> {
    if packets == [] then []
    else if IsSettled(s, packets[0]) then Unsettled(s, packets[1..])
    else [packets[0]] + Unsettled(s, packets[1..])
  }

  /** `completeConnectionAttempt` begins to flush. */
  function Connect(s: State): State {
    FlushFrom(s.(connected := true, sendBuffer := []), s.sendBuffer)
  }

  /**
    The observers of the first packet have returned: send it, or put everything back. A
    packet that cannot be encoded throws out of the flush, which has nothing put back.
   */
  function FlushNext(s: State, packets: seq<Call>, encodes: bool): State {
    if packets == [] then s
    else if !s.connected then s.(sendBuffer := Unsettled(s, packets) + s.sendBuffer)
    else if !encodes then s.(lost := s.lost + set k | k in packets)
    else FlushFrom(Send(s, packets[0], true), packets[1..])
  }

  /** The loop of `markDisconnected` over the cancel handles; `cancel` does not look at `settled`. */
  function RejectNext(s: State, rest: seq<Call>): State {
    if rest == [] || rest[0] >= |s.timed| then s
    else
      var q := Settle(s, rest[0], Disconnected);
      q.(stack := [Rejecting(rest[1..])] + q.stack)
  }

  function Disconnect(s: State): State {
    if !s.connected then s
    else RejectNext(s.(connected := false, pendingAcks := []), s.pendingAcks)
  }

  datatype Event =
    | EmitCall(timed: bool, isVolatile: bool)
    | Established
    | Lost
    | Answer(call: Call)
    | Timer(call: Call)
    | Return(encodes: bool)  // of the packet whose observers return, if any

  predicate WasSent(s: State, k: Call) {
    exists i :: 0 <= i < |s.sent| && s.sent[i].call == k
  }

  /** Answers come back, perhaps more than once, for what was sent; a timer fires while it is armed. */
  predicate Enabled(s: State, e: Event) {
    match e
    case EmitCall(_, _) => true
    case Established => s.stack == [] && !s.connected
    case Lost => true
    case Answer(k) => s.stack == [] && k < |s.timed| && s.timed[k] != Untimed && WasSent(s, k)
    case Timer(k) => s.stack == [] && k < |s.timed| && k in s.armed
    case Return(_) => s.stack != []
  }

  function Resume(s: State, f: Frame, encodes: bool): State {
    match f
    case Observing(k) => SendDirect(s, k, encodes)
    case Flushing(packets) => FlushNext(s, packets, encodes)
    case Rejecting(rest) => RejectNext(s, rest)
  }

  function Step(s: State, e: Event): State {
    if !Enabled(s, e) then s
    else
      match e
      case EmitCall(timed, isVolatile) => Emit(s, timed, isVolatile)
      case Established => Connect(s)
      case Lost => Disconnect(s)
      case Answer(k) => if IsSettled(s, k) then s else Settle(s, k, Answered)
      case Timer(k) => Settle(s, k, TimedOut)
      case Return(encodes) => Resume(s.(stack := s.stack[1..]), s.stack[0], encodes)
  }

  function Run(s: State, events: seq<Event>): State
    decreases |events|
  {
    if events == [] then s else Run(Step(s, events[0]), events[1..])
  }
}
