/** The page's outgoing buffer, in every run. */
module BridgeBuffer {
  // Every emission is sent once, dropped with a reported `bridge_error`, or waiting; what waits
  // keeps the order in which it was emitted.

  import opened Common
  import opened BridgeMessages
  import opened BridgePage

  function Ids(s: seq<Emission>): (ids: seq<nat>)
    ensures |ids| == |s| && forall i :: 0 <= i < |s| ==> ids[i] == s[i].id
  {
    seq(|s|, i requires 0 <= i < |s| => s[i].id)
  }

  /** The emissions 0, 1, ... below `n`, once each. */
  function Numbers(n: nat): multiset<nat> {
    if n == 0 then multiset{} else Numbers(n - 1) + multiset{n - 1}
  }

  lemma {:induction false} NumbersOnce(n: nat, k: nat)
    ensures Numbers(n)[k] == if k < n then 1 else 0
  {
    if n > 0 { NumbersOnce(n - 1, k); }
  }

  /** What an interrupted flush still has to post. Only the outermost frame can be a flush. */
  function Waiting(frames: seq<Frame>): seq<Emission> {
    if frames != [] && frames[|frames| - 1].Flush? then frames[|frames| - 1].rest else []
  }

  function Backlog(p: State): seq<Emission> {
    Waiting(p.frames) + p.outgoing
  }

  ghost predicate FlushOutermost(frames: seq<Frame>) {
    forall i :: 0 <= i < |frames| - 1 ==> !frames[i].Flush?
  }

  ghost predicate InOrder(s: seq<Emission>) {
    forall i, j :: 0 <= i < j < |s| ==> s[i].id < s[j].id
  }

  /** Where the emissions made so far are. */
  datatype Ledger = Ledger(backlog: seq<Emission>, sent: seq<nat>, dropped: seq<nat>, emissions: nat)

  function LedgerOf(p: State): Ledger {
    Ledger(Backlog(p), p.sent, p.dropped, p.emissions)
  }

  /** Every emission is in exactly one place, once. */
  ghost predicate Balanced(l: Ledger) {
    multiset(Ids(l.backlog)) + multiset(l.sent) + multiset(l.dropped) == Numbers(l.emissions)
  }

  ghost predicate Queued(l: Ledger) {
    InOrder(l.backlog) && forall e :: e in l.backlog ==> e.id < l.emissions
  }

  ghost predicate Conserved(p: State) {
    FlushOutermost(p.frames) && Balanced(LedgerOf(p)) && Queued(LedgerOf(p))
  }

  lemma IdsConcat(s: seq<Emission>, t: seq<Emission>)
    ensures Ids(s + t) == Ids(s) + Ids(t)
    ensures multiset(Ids(s + t)) == multiset(Ids(s)) + multiset(Ids(t))
  {}

  /**
    What one stretch of the flush loop does: the first `m` emissions are sent, the next
    one is dropped if its post fails, and the rest waits in front of whatever was
    buffered meanwhile, all in the original order.
   */
  ghost predicate Flushed(p: State, rest: seq<Emission>, q: State, m: nat, n: nat) {
    && m <= n <= |rest| && n <= m + 1
    && q.sent == p.sent + Ids(rest[..m])
    && q.dropped == p.dropped + Ids(rest[m..n])
    && q.emissions == p.emissions
    && (m < n ==> |q.frames| == 2 && q.frames[0].EmissionFailed?)
    && (m == n ==> q.frames == [])
    && FlushOutermost(q.frames)
    && Backlog(q) == rest[n..] + p.outgoing
    && (m == n < |rest| ==> q.outgoing == rest[n..] + p.outgoing)
  }

  lemma FlushStops(p: State, g: nat, rest: seq<Emission>, failing: nat)
    requires p.frames == [] && (rest == [] || !MayFlush(p, g))
    ensures Flushed(p, rest, FlushLoop(p, g, rest, failing), 0, 0)
  {
    assert rest[0..] == rest;
    assert p.sent + Ids(rest[..0]) == p.sent;
    assert p.dropped + Ids(rest[0..0]) == p.dropped;
  }

  lemma FlushFails(p: State, g: nat, rest: seq<Emission>)
    requires p.frames == [] && rest != [] && MayFlush(p, g)
    ensures Flushed(p, rest, FlushLoop(p, g, rest, 0), 0, 1)
  {
    var q := FlushLoop(p, g, rest, 0);
    assert [Flush(g, rest[1..])] + p.frames == [Flush(g, rest[1..])];
    assert q.frames == [EmissionFailed(NextAckId(p, rest[0], g)), Flush(g, rest[1..])];
    assert p.sent + Ids(rest[..0]) == p.sent;
    assert Ids(rest[0..1]) == [rest[0].id];
  }

  lemma Associates(xs: seq<nat>, ys: seq<nat>, zs: seq<nat>)
    ensures (xs + ys) + zs == xs + (ys + zs)
  {}

  lemma FlushGoesOn(p: State, b: State, rest: seq<Emission>, q: State, m: nat, n: nat)
    requires rest != [] && b.sent == p.sent + [rest[0].id] && b.dropped == p.dropped
    requires b.emissions == p.emissions && b.outgoing == p.outgoing
    requires Flushed(b, rest[1..], q, m, n)
    ensures Flushed(p, rest, q, m + 1, n + 1)
  {
    TailSlices(rest, m, n);
    IdsConcat([rest[0]], rest[1..][..m]);
    assert Ids([rest[0]]) == [rest[0].id];
    Associates(p.sent, [rest[0].id], Ids(rest[1..][..m]));
  }

  lemma TailSlices(rest: seq<Emission>, m: nat, n: nat)
    requires m <= n < |rest|
    ensures rest[..m + 1] == [rest[0]] + rest[1..][..m]
    ensures rest[1..][m..n] == rest[m + 1..n + 1] && rest[1..][n..] == rest[n + 1..]
  {}

  lemma {:induction false} FlushSplits(p: State, g: nat, rest: seq<Emission>, failing: nat)
    returns (m: nat, n: nat)
    requires p.frames == []
    ensures Flushed(p, rest, FlushLoop(p, g, rest, failing), m, n)
    decreases |rest|
  {
    hide Flushed;
    if rest == [] || !MayFlush(p, g) {
      FlushStops(p, g, rest, failing);
      m, n := 0, 0;
    } else if failing == 0 {
      FlushFails(p, g, rest);
      m, n := 0, 1;
    } else {
      var b := PostEmission(p, rest[0], g, true);
      m, n := FlushSplits(b, g, rest[1..], failing - 1);
      FlushGoesOn(p, b, rest, FlushLoop(p, g, rest, failing), m, n);
      m, n := m + 1, n + 1;
    }
  }

  /** The first `m` entries of the backlog are sent and those up to `n` dropped. */
  function Advance(l: Ledger, m: nat, n: nat): Ledger
    requires m <= n <= |l.backlog|
  {
    Ledger(l.backlog[n..], l.sent + Ids(l.backlog[..m]), l.dropped + Ids(l.backlog[m..n]), l.emissions)
  }

  lemma SliceAccounts(rest: seq<Emission>, m: nat, n: nat)
    requires m <= n <= |rest|
    ensures multiset(Ids(rest)) == multiset(Ids(rest[..m])) + multiset(Ids(rest[m..n])) + multiset(Ids(rest[n..]))
  {
    assert rest == rest[..m] + rest[m..n] + rest[n..];
    IdsConcat(rest[..m] + rest[m..n], rest[n..]);
    IdsConcat(rest[..m], rest[m..n]);
  }

  lemma AdvanceKeeps(l: Ledger, m: nat, n: nat)
    requires Balanced(l) && Queued(l) && m <= n <= |l.backlog|
    ensures Balanced(Advance(l, m, n)) && Queued(Advance(l, m, n))
  {
    SliceAccounts(l.backlog, m, n);
  }

  lemma EnqueueKeeps(l: Ledger, e: Emission)
    requires Balanced(l) && Queued(l) && e.id == l.emissions
    ensures var k := l.(backlog := l.backlog + [e], emissions := l.emissions + 1); Balanced(k) && Queued(k)
  {
    IdsConcat(l.backlog, [e]);
    assert Ids([e]) == [e.id];
  }

  lemma DirectKeeps(l: Ledger)
    requires Balanced(l) && Queued(l)
    ensures var k := l.(sent := l.sent + [l.emissions], emissions := l.emissions + 1); Balanced(k) && Queued(k)
    ensures var k := l.(dropped := l.dropped + [l.emissions], emissions := l.emissions + 1); Balanced(k) && Queued(k)
  {}

  /** `rest` has just been taken off the front of the backlog. */
  lemma FlushConserves(p: State, g: nat, rest: seq<Emission>, failing: nat)
    requires p.frames == []
    requires Conserved(p.(outgoing := rest + p.outgoing))
    ensures Conserved(FlushLoop(p, g, rest, failing))
  {
    hide Balanced, Queued;
    var m, n := FlushSplits(p, g, rest, failing);
    var l := LedgerOf(p.(outgoing := rest + p.outgoing));
    AdvanceKeeps(l, m, n);
    LedgerAdvances(p, rest, FlushLoop(p, g, rest, failing), m, n);
  }

  lemma LedgerAdvances(p: State, rest: seq<Emission>, q: State, m: nat, n: nat)
    requires p.frames == [] && Flushed(p, rest, q, m, n)
    ensures var l := LedgerOf(p.(outgoing := rest + p.outgoing));
            m <= n <= |l.backlog| && LedgerOf(q) == Advance(l, m, n)
  {
    hide Ids, FlushOutermost;
    var l := LedgerOf(p.(outgoing := rest + p.outgoing));
    assert l.backlog == rest + p.outgoing;
    SlicesOf(rest, p.outgoing, m, n);
  }

  lemma SlicesOf(rest: seq<Emission>, more: seq<Emission>, m: nat, n: nat)
    requires m <= n <= |rest|
    ensures var all := rest + more;
            all[..m] == rest[..m] && all[m..n] == rest[m..n] && all[n..] == rest[n..] + more
  {}

  lemma PushKeepsWaiting(frames: seq<Frame>, frame: Frame)
    requires FlushOutermost(frames) && !frame.Flush?
    ensures FlushOutermost([frame] + frames) && Waiting([frame] + frames) == Waiting(frames)
  {}

  lemma PopKeepsWaiting(frames: seq<Frame>)
    requires FlushOutermost(frames) && frames != []
    ensures FlushOutermost(frames[1..])
    ensures if frames[0].Flush? then frames[1..] == [] && Waiting(frames) == frames[0].rest
            else Waiting(frames[1..]) == Waiting(frames)
  {}

  lemma EmitConserves(p: State, wantsAck: bool, cloned: bool)
    requires Conserved(p)
    ensures Conserved(EmitCall(p, wantsAck, cloned))
  {
    hide Balanced, Queued, FlushOutermost, Waiting, PostEmission;
    var e := Emission(p.emissions, wantsAck);
    if !p.connected || p.generation == None || p.disconnecting {
      EnqueueKeeps(LedgerOf(p), e);
      assert Waiting(p.frames) + (p.outgoing + [e]) == Backlog(p) + [e];
    } else {
      PostNewConserves(p, e, p.generation.value, cloned);
    }
  }

  lemma PostNewConserves(p: State, e: Emission, g: nat, cloned: bool)
    requires Conserved(p) && e.id == p.emissions
    ensures Conserved(PostEmission(p.(emissions := p.emissions + 1), e, g, cloned))
  {
    hide Balanced, Queued, FlushOutermost, Waiting, Ids;
    var l := LedgerOf(p);
    DirectKeeps(l);
    PushKeepsWaiting(p.frames, EmissionFailed(NextAckId(p, e, g)));
    var q := PostEmission(p.(emissions := p.emissions + 1), e, g, cloned);
    assert Backlog(q) == Backlog(p);
    assert LedgerOf(q) == if cloned then l.(sent := l.sent + [l.emissions], emissions := l.emissions + 1)
                          else l.(dropped := l.dropped + [l.emissions], emissions := l.emissions + 1);
  }

  lemma ConnectConserves(p: State, cloned: bool)
    requires Conserved(p)
    ensures Conserved(ConnectCall(p, cloned))
  {
    hide Balanced, Queued, FlushOutermost, Waiting;
    PushKeepsWaiting(p.frames, ConnectFailed);
  }

  lemma SameLedgerConserves(p: State, q: State)
    requires Conserved(p) && FlushOutermost(q.frames) && LedgerOf(q) == LedgerOf(p)
    ensures Conserved(q)
  {
  }

  lemma ResumeOtherConserves(p: State, failing: nat)
    requires Conserved(p) && p.frames != [] && !p.frames[0].Flush?
    ensures Conserved(Resume(p, failing))
  {
    hide Balanced, Queued, FlushOutermost, Waiting, FlushLoop;
    PopKeepsWaiting(p.frames);
    var q := p.(frames := p.frames[1..]);
    SameLedgerConserves(p, q);
    SameLedgerConserves(q, Resume(p, failing));
  }

  lemma ResumeFlushConserves(p: State)
    requires Conserved(p) && p.frames != [] && p.frames[0].Flush?
    ensures Conserved(p.(frames := [], outgoing := p.frames[0].rest + p.outgoing))
  {
    hide Balanced, Queued;
    PopKeepsWaiting(p.frames);
    assert [] + (p.frames[0].rest + p.outgoing) == Backlog(p);
  }

  lemma ResumeConserves(p: State, failing: nat)
    requires Conserved(p)
    ensures Conserved(Resume(p, failing))
  {
    hide Conserved, Waiting, FlushLoop, LedgerOf;
    if p.frames != [] {
      if p.frames[0].Flush? {
        OnlyFlush(p);
        ResumeFlushConserves(p);
        FlushConserves(p.(frames := []), p.frames[0].generation, p.frames[0].rest, failing);
      } else {
        ResumeOtherConserves(p, failing);
      }
    }
  }

  lemma OnlyFlush(p: State)
    requires Conserved(p) && p.frames != [] && p.frames[0].Flush?
    ensures p.frames[1..] == []
  {}

  lemma ReceiveConserves(p: State, m: HostMessage, failing: nat)
    requires Conserved(p) && p.frames == []
    ensures Conserved(Receive(p, m, failing))
  {
    hide Balanced, Queued, FlushOutermost, FlushLoop;
    if m.Connected? && Some(m.request) == p.request && p.connecting && !p.disconnectAfterConnect {
      var q := p.(generation := Some(m.generation), connected := true, connecting := false, ackSequence := 0);
      assert q.outgoing + [] == q.outgoing;
      FlushConserves(q.(outgoing := []), m.generation, q.outgoing, failing);
    }
  }

  lemma DisconnectConserves(p: State)
    requires Conserved(p)
    ensures Conserved(DisconnectCall(p))
  {
    hide Balanced, Queued, FlushOutermost;
  }

  lemma AcknowledgeConserves(p: State, r: nat, payload: Payload, cloned: bool)
    requires Conserved(p) && r < |p.references|
    ensures Conserved(AcknowledgeCall(p, r, payload, cloned))
  {
    hide Balanced, Queued, FlushOutermost;
  }
}
