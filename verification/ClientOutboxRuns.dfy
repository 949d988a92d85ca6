/** The outbox of a client socket, in every run. */
module ClientOutboxRuns {
  // Every callback runs once and no emission is lost.

  import opened Common
  import opened ClientOutbox

  // Timed callbacks.

  ghost predicate HasRun(ran: seq<Ran>, k: Call) {
    exists i :: 0 <= i < |ran| && ran[i].call == k
  }

  /** A callback has not run and its timer is armed, or it has run once and the timer is not. */
  ghost predicate Callbacks(timed: seq<Timed>, armed: set<Call>, ran: seq<Ran>) {
    && (forall k :: 0 <= k < |timed| ==> (k in armed <==> timed[k] == Open))
    && (forall k :: 0 <= k < |timed| ==> (HasRun(ran, k) <==> timed[k] == Settled))
    && (forall k :: k in armed ==> k < |timed|)
    && (forall i :: 0 <= i < |ran| ==> ran[i].call < |timed|)
    && (forall i, j :: 0 <= i < j < |ran| ==> ran[i].call != ran[j].call)
  }

  ghost predicate AllOpen(timed: seq<Timed>, calls: seq<Call>) {
    && (forall i :: 0 <= i < |calls| ==> calls[i] < |timed| && timed[calls[i]] == Open)
    && (forall i, j :: 0 <= i < j < |calls| ==> calls[i] != calls[j])
  }

  /** Cancel handles are kept only for unsettled callbacks, and only while connected. */
  ghost predicate Handles(s: State) {
    && AllOpen(s.timed, s.pendingAcks)
    && (!s.connected ==> s.pendingAcks == [])
    && (forall f: Frame :: f in s.stack && f.Rejecting? ==> !s.connected && AllOpen(s.timed, f.rest))
    && (forall i, j :: 0 <= i < j < |s.stack| ==> !(s.stack[i].Rejecting? && s.stack[j].Rejecting?))
  }

  lemma {:induction false} WithoutFacts(xs: seq<Call>, k: Call)
    requires forall i, j :: 0 <= i < j < |xs| ==> xs[i] != xs[j]
    ensures forall x :: x in Without(xs, k) <==> x in xs && x != k
    ensures forall i, j :: 0 <= i < j < |Without(xs, k)| ==> Without(xs, k)[i] != Without(xs, k)[j]
  {
    if xs != [] {
      PopMembers(xs);
      assert xs[0] !in xs[1..];
      if xs[0] != k {
        WithoutFacts(xs[1..], k);
        var ys := Without(xs[1..], k);
        assert xs[0] !in ys;
        assert Without(xs, k) == [xs[0]] + ys;
      }
    }
  }

  lemma WithoutOpen(timed: seq<Timed>, xs: seq<Call>, k: Call)
    requires AllOpen(timed, xs) && k < |timed|
    ensures AllOpen(timed[k := Settled], Without(xs, k))
  {
    WithoutFacts(xs, k);
    var ys := Without(xs, k);
    forall i | 0 <= i < |ys| ensures ys[i] < |timed| && timed[k := Settled][ys[i]] == Open {
      assert ys[i] in ys;
    }
  }

  lemma SettleCallbacks(s: State, k: Call, how: How)
    requires Callbacks(s.timed, s.armed, s.ran) && k < |s.timed| && s.timed[k] == Open
    ensures var q := Settle(s, k, how); Callbacks(q.timed, q.armed, q.ran)
  {
    var q := Settle(s, k, how);
    assert !HasRun(s.ran, k);
    forall x ensures HasRun(q.ran, x) <==> HasRun(s.ran, x) || x == k {
      if HasRun(s.ran, x) {
        var i :| 0 <= i < |s.ran| && s.ran[i].call == x;
        assert q.ran[i].call == x;
      }
      if x == k { assert q.ran[|s.ran|].call == x; }
    }
  }

  /** Settling one call leaves every other call's callback alone. */
  lemma SettleKeepsOpen(s: State, k: Call, how: How, calls: seq<Call>)
    requires k < |s.timed| && AllOpen(s.timed, calls) && k !in calls
    ensures AllOpen(Settle(s, k, how).timed, calls)
  {}

  lemma SettleHandles(s: State, k: Call, how: How)
    requires Handles(s) && k < |s.timed| && s.stack == []
    ensures Handles(Settle(s, k, how))
  {
    WithoutOpen(s.timed, s.pendingAcks, k);
    hide AllOpen;
  }

  lemma RejectHandles(s: State, rest: seq<Call>)
    requires Handles(s) && Callbacks(s.timed, s.armed, s.ran) && !s.connected && AllOpen(s.timed, rest)
    requires forall f: Frame :: f in s.stack ==> !f.Rejecting?
    ensures var q := RejectNext(s, rest); Handles(q) && Callbacks(q.timed, q.armed, q.ran)
  {
    if rest != [] {
      SettleCallbacks(s, rest[0], Disconnected);
      var p := Settle(s, rest[0], Disconnected);
      assert rest[0] !in rest[1..];
      assert AllOpen(s.timed, rest[1..]);
      SettleKeepsOpen(s, rest[0], Disconnected, rest[1..]);
      var q := RejectNext(s, rest);
      assert q == p.(stack := [Rejecting(rest[1..])] + p.stack);
      assert q.pendingAcks == [] by { assert s.pendingAcks == []; }
      hide AllOpen, Callbacks, Settle;
      assert AllOpen(q.timed, []) by { NoneOpen(q.timed); }
    }
  }

  lemma NoneOpen(timed: seq<Timed>)
    ensures AllOpen(timed, [])
  {}

  lemma TrackHandles(s: State, k: Call)
    requires Handles(s) && s.connected && k < |s.timed| && s.timed[k] != Settled
    ensures Handles(Track(s, k)) && Track(s, k).stack == s.stack && Track(s, k).timed == s.timed && Track(s, k).connected
  {}

  lemma PushHandles(s: State, f: Frame)
    requires Handles(s) && !f.Rejecting?
    ensures Handles(s.(stack := [f] + s.stack))
  {
    hide AllOpen;
  }

  lemma {:induction false} FlushHandles(s: State, packets: seq<Call>)
    requires Handles(s) && s.connected && forall k :: k in packets ==> k < |s.timed|
    ensures var q := FlushFrom(s, packets); Handles(q) && q.timed == s.timed && q.armed == s.armed && q.ran == s.ran
    decreases |packets|
  {
    hide Handles;
    if packets != [] {
      PopMembers(packets);
      assert packets[0] in packets;
      if IsSettled(s, packets[0]) {
        FlushHandles(s, packets[1..]);
      } else {
        TrackHandles(s, packets[0]);
        PushHandles(Track(s, packets[0]), Flushing(packets));
      }
    }
  }

  lemma EmitHandles(s: State, timed: bool, isVolatile: bool)
    requires Handles(s) && Callbacks(s.timed, s.armed, s.ran)
    ensures var q := Emit(s, timed, isVolatile); Handles(q) && Callbacks(q.timed, q.armed, q.ran)
  {
    var k := |s.timed|;
    var p := s.(timed := s.timed + [if timed then Open else Untimed], armed := if timed then s.armed + {k} else s.armed);
    assert !HasRun(s.ran, k);
    MoreCalls(s, p);
    hide Handles, Callbacks;
    if s.connected {
      TrackHandles(p, k);
      PushHandles(Track(p, k), Observing(k));
    }
  }

  lemma MoreCalls(s: State, p: State)
    requires Handles(s) && Callbacks(s.timed, s.armed, s.ran) && !HasRun(s.ran, |s.timed|)
    requires exists x: Timed ::
               x != Settled && p == s.(timed := s.timed + [x], armed := if x == Open then s.armed + {|s.timed|} else s.armed)
    ensures Handles(p) && Callbacks(p.timed, p.armed, p.ran)
  {
    forall xs | AllOpen(s.timed, xs) ensures AllOpen(p.timed, xs) {}
    hide AllOpen;
  }

  // Emissions.

  /** The packets a flush under way still holds, the first one being observed. */
  function Hand(stack: seq<Frame>): seq<Call> {
    if stack != [] && stack[|stack| - 1].Flushing? then stack[|stack| - 1].packets else []
  }

  ghost predicate FlushAtBottom(stack: seq<Frame>) {
    forall i :: 0 <= i < |stack| - 1 ==> !stack[i].Flushing?
  }

  ghost predicate Ascending(xs: seq<Call>) {
    forall i, j :: 0 <= i < j < |xs| ==> xs[i] < xs[j]
  }

  ghost predicate SentTo(sent: seq<Sent>, k: Call) {
    exists i :: 0 <= i < |sent| && sent[i].call == k
  }

  /** Packets waiting, in the order of their emission: those in hand before those buffered later. */
  ghost predicate InOrder(s: State, hand: seq<Call>) {
    && Ascending(hand + s.sendBuffer)
    && (forall k :: k in hand + s.sendBuffer ==>
          k < |s.timed| && !SentTo(s.sent, k) && Observing(k) !in s.stack && k !in s.dropped && k !in s.lost)
  }

  ghost predicate SentOnce(s: State) {
    && (forall i, j :: 0 <= i < j < |s.sent| ==> s.sent[i].call != s.sent[j].call)
    && (forall i :: 0 <= i < |s.sent| ==>
          && s.sent[i].call < |s.timed| && s.sent[i].call !in s.dropped && s.sent[i].call !in s.lost
          && (s.sent[i].buffered ==> !s.sent[i].settled))
    && (forall k: Call :: Observing(k) in s.stack ==>
          k < |s.timed| && !SentTo(s.sent, k) && k !in s.dropped && k !in s.lost)
    && (forall i, j :: 0 <= i < j < |s.stack| && s.stack[i].Observing? ==> s.stack[i] != s.stack[j])
    && (forall k :: k in s.dropped || k in s.lost ==> k < |s.timed|)
  }

  /** A packet neither dropped, settled nor counted as lost has been sent, is being sent, or waits. */
  ghost predicate NoneLost(s: State, hand: seq<Call>) {
    forall k :: 0 <= k < |s.timed| && k !in s.dropped && k !in s.lost && s.timed[k] != Settled ==>
      SentTo(s.sent, k) || k in hand || k in s.sendBuffer || Observing(k) in s.stack
  }

  /** The packet being observed by a flush is unsettled as long as the flush may go on. */
  ghost predicate FlushReady(s: State) {
    && FlushAtBottom(s.stack)
    && (forall f: Frame :: f in s.stack && f.Flushing? ==>
          f.packets != [] && (s.connected ==> !IsSettled(s, f.packets[0])))
  }

  ghost predicate Lined(s: State, hand: seq<Call>) {
    InOrder(s, hand) && SentOnce(s) && NoneLost(s, hand)
  }

  ghost predicate Sound(s: State) {
    && Callbacks(s.timed, s.armed, s.ran) && Handles(s) && FlushReady(s) && Lined(s, Hand(s.stack))
  }

  /** Every element of `xs` is below every element of `ys`. */
  ghost predicate Below(xs: seq<Call>, ys: seq<Call>) {
    forall i, j :: 0 <= i < |xs| && 0 <= j < |ys| ==> xs[i] < ys[j]
  }

  lemma JoinAscending(xs: seq<Call>, ys: seq<Call>)
    requires Ascending(xs) && Ascending(ys) && Below(xs, ys)
    ensures Ascending(xs + ys)
  {}

  lemma SplitAscending(xs: seq<Call>, ys: seq<Call>)
    requires Ascending(xs + ys)
    ensures Ascending(xs) && Ascending(ys) && Below(xs, ys)
  {
    assert forall i :: 0 <= i < |xs| ==> (xs + ys)[i] == xs[i];
    assert forall i :: 0 <= i < |ys| ==> (xs + ys)[|xs| + i] == ys[i];
  }

  lemma TailAscending(xs: seq<Call>)
    requires Ascending(xs) && xs != []
    ensures Ascending(xs[1..]) && Below([xs[0]], xs[1..])
  {
    assert xs == [xs[0]] + xs[1..];
    SplitAscending([xs[0]], xs[1..]);
  }

  /** A selection of `ys` stays below or above what `ys` was below or above. */
  lemma BelowPart(xs: seq<Call>, ys: seq<Call>, part: seq<Call>)
    requires forall k :: k in part ==> k in ys
    ensures Below(xs, ys) ==> Below(xs, part)
    ensures Below(ys, xs) ==> Below(part, xs)
  {
    forall j | 0 <= j < |part| ensures exists n :: 0 <= n < |ys| && ys[n] == part[j] { assert part[j] in part; }
  }

  lemma {:induction false} UnsettledFacts(s: State, packets: seq<Call>)
    requires Ascending(packets)
    ensures forall k :: k in Unsettled(s, packets) <==> k in packets && !IsSettled(s, k)
    ensures Ascending(Unsettled(s, packets))
  {
    if packets != [] {
      TailAscending(packets);
      UnsettledFacts(s, packets[1..]);
      PopMembers(packets);
      BelowPart([packets[0]], packets[1..], Unsettled(s, packets[1..]));
      JoinAscending([packets[0]], Unsettled(s, packets[1..]));
    }
  }

  lemma WithoutAscending(xs: seq<Call>, k: Call)
    requires Ascending(xs)
    ensures Ascending(Without(xs, k))
    ensures forall x :: x in Without(xs, k) <==> x in xs && x != k
  {
    WithoutFacts(xs, k);
    AscendingWithout(xs, k);
  }

  lemma {:induction false} AscendingWithout(xs: seq<Call>, k: Call)
    requires Ascending(xs)
    ensures Ascending(Without(xs, k))
  {
    if xs != [] {
      TailAscending(xs);
      if xs[0] != k {
        AscendingWithout(xs[1..], k);
        WithoutFacts(xs[1..], k);
        BelowPart([xs[0]], xs[1..], Without(xs[1..], k));
        JoinAscending([xs[0]], Without(xs[1..], k));
      }
    }
  }

  // Settling.

  lemma SettleLined(s: State, k: Call, how: How, hand: seq<Call>)
    requires Lined(s, hand) && k < |s.timed|
    ensures Lined(Settle(s, k, how), hand)
  {
    SettleInOrder(s, k, how, hand);
    WithoutAscending(s.sendBuffer, k) by { SplitAscending(hand, s.sendBuffer); }
    hide Without, InOrder, SentTo;
  }

  lemma SettleInOrder(s: State, k: Call, how: How, hand: seq<Call>)
    requires InOrder(s, hand) && k < |s.timed|
    ensures InOrder(Settle(s, k, how), hand)
  {
    SplitAscending(hand, s.sendBuffer);
    WithoutAscending(s.sendBuffer, k);
    BelowPart(hand, s.sendBuffer, Without(s.sendBuffer, k));
    hide Without, Ascending, SentTo, Below;
    var q := Settle(s, k, how);
    JoinAscending(hand, q.sendBuffer);
    forall x | x in hand + q.sendBuffer ensures x in hand + s.sendBuffer {}
  }

  // Emitting.

  lemma TrackLined(s: State, k: Call, hand: seq<Call>)
    ensures Lined(s, hand) ==> Lined(Track(s, k), hand)
  {
    hide Ascending, SentTo;
  }

  lemma EmitWaits(s: State, timed: bool, isVolatile: bool, hand: seq<Call>)
    requires Lined(s, hand) && !s.connected
    ensures Lined(Emit(s, timed, isVolatile), hand)
  {
    var k := |s.timed|;
    var q := Emit(s, timed, isVolatile);
    assert !SentTo(s.sent, k) && Observing(k) !in s.stack && k !in s.dropped && k !in s.lost;
    var all := hand + s.sendBuffer;
    forall i | 0 <= i < |all| ensures all[i] < k { assert all[i] in all; }
    JoinAscending(all, [k]);
    assert hand + (s.sendBuffer + [k]) == all + [k];
    hide Ascending, SentTo;
  }

  lemma EmitObserves(s: State, timed: bool, isVolatile: bool, hand: seq<Call>)
    requires Lined(s, hand) && s.connected
    ensures Lined(Emit(s, timed, isVolatile), hand)
  {
    var k := |s.timed|;
    var q := Emit(s, timed, isVolatile);
    assert !SentTo(s.sent, k) && Observing(k) !in s.stack && k !in s.dropped && k !in s.lost;
    assert k !in hand && k !in s.sendBuffer;
    hide Ascending, SentTo;
    forall f ensures f in q.stack <==> f in s.stack || f == Observing(k) {}
  }

  // Sending.

  lemma SentGrows(sent: seq<Sent>, x: Sent)
    ensures forall k :: SentTo(sent + [x], k) <==> SentTo(sent, k) || k == x.call
  {
    forall k ensures SentTo(sent + [x], k) <==> SentTo(sent, k) || k == x.call {
      if SentTo(sent, k) {
        var i :| 0 <= i < |sent| && sent[i].call == k;
        assert (sent + [x])[i].call == k;
      }
      if k == x.call { assert (sent + [x])[|sent|].call == k; }
    }
  }

  lemma ObservedLined(s: State, k: Call, hand: seq<Call>, encodes: bool)
    requires Lined(s, hand) && s.stack != [] && s.stack[0] == Observing(k)
    ensures Lined(SendDirect(s.(stack := s.stack[1..]), k, encodes), hand)
  {
    PopMembers(s.stack);
    assert s.stack[0] in s.stack;
    assert Observing(k) !in s.stack[1..] by { assert forall i :: 0 < i < |s.stack| ==> s.stack[i] != s.stack[0]; }
    hide Lined;
    if encodes { ObservedSent(s, k, hand); } else { ObservedLost(s, k, hand); }
  }

  lemma ObservedSent(s: State, k: Call, hand: seq<Call>)
    requires Lined(s, hand) && s.stack != [] && s.stack[0] == Observing(k) && Observing(k) !in s.stack[1..]
    requires forall f :: f in s.stack <==> f in s.stack[1..] || f == s.stack[0]
    ensures Lined(Send(s.(stack := s.stack[1..]), k, false), hand)
  {
    assert s.stack[0] in s.stack;
    SentGrows(s.sent, Sent(k, false, IsSettled(s, k)));
    hide Ascending, SentTo;
  }

  lemma ObservedLost(s: State, k: Call, hand: seq<Call>)
    requires Lined(s, hand) && s.stack != [] && s.stack[0] == Observing(k) && Observing(k) !in s.stack[1..]
    requires forall f :: f in s.stack <==> f in s.stack[1..] || f == s.stack[0]
    ensures Lined(s.(stack := s.stack[1..], lost := s.lost + {k}), hand)
  {
    assert s.stack[0] in s.stack;
    hide Ascending, SentTo;
  }

  lemma PopLined(s: State, hand: seq<Call>)
    requires Lined(s, hand) && s.stack != [] && !s.stack[0].Observing?
    ensures Lined(s.(stack := s.stack[1..]), hand)
  {
    PopMembers(s.stack);
    hide Ascending, SentTo;
  }

  lemma PushLined(s: State, f: Frame, hand: seq<Call>)
    requires Lined(s, hand) && !f.Observing?
    ensures Lined(s.(stack := [f] + s.stack), hand)
  {
    hide Ascending, SentTo;
  }

  /** The first packet in hand is sent. */
  lemma HeadSent(s: State, hand: seq<Call>)
    requires Lined(s, hand) && hand != [] && !IsSettled(s, hand[0])
    ensures Lined(Send(s, hand[0], true), hand[1..])
  {
    PopMembers(hand);
    SentGrows(s.sent, Sent(hand[0], true, false));
    var after := hand[1..] + s.sendBuffer;
    assert hand + s.sendBuffer == [hand[0]] + after;
    SplitAscending([hand[0]], after);
    forall i | 0 <= i < |after| ensures after[i] != hand[0] { assert [hand[0]][0] < after[i]; }
    PopMembers([hand[0]] + after);
    assert ([hand[0]] + after)[1..] == after;
    assert hand[0] in [hand[0]] + after;
    hide Ascending, SentTo;
  }

  /** A settled packet is skipped. */
  lemma HeadSkipped(s: State, hand: seq<Call>)
    requires Lined(s, hand) && hand != [] && IsSettled(s, hand[0])
    ensures Lined(s, hand[1..])
  {
    PopMembers(hand);
    assert hand + s.sendBuffer == [hand[0]] + (hand[1..] + s.sendBuffer);
    SplitAscending([hand[0]], hand[1..] + s.sendBuffer);
    hide Ascending, SentTo;
  }

  lemma {:induction false} FlushLined(s: State, packets: seq<Call>)
    requires Lined(s, packets) && s.stack == []
    ensures var q := FlushFrom(s, packets);
            && Lined(q, Hand(q.stack)) && FlushReady(q)
    decreases |packets|
  {
    hide Lined;
    if packets != [] {
      if IsSettled(s, packets[0]) {
        HeadSkipped(s, packets);
        FlushLined(s, packets[1..]);
      } else {
        TrackLined(s, packets[0], packets);
        PushLined(Track(s, packets[0]), Flushing(packets), packets);
      }
    }
  }

  /** A packet that cannot be encoded takes the whole hand with it. */
  lemma HandLost(s: State, hand: seq<Call>)
    requires Lined(s, hand)
    ensures Lined(s.(lost := s.lost + set k | k in hand), [])
  {
    SplitAscending(hand, s.sendBuffer);
    assert [] + s.sendBuffer == s.sendBuffer;
    assert forall k :: k in hand + s.sendBuffer <==> k in hand || k in s.sendBuffer;
    HandLostOrder(s, hand);
    HandLostSent(s, hand);
    hide InOrder, SentOnce;
  }

  lemma HandLostOrder(s: State, hand: seq<Call>)
    requires InOrder(s, hand) && Below(hand, s.sendBuffer) && Ascending(s.sendBuffer)
    ensures InOrder(s.(lost := s.lost + set k | k in hand), [])
  {
    assert [] + s.sendBuffer == s.sendBuffer;
    forall k | k in s.sendBuffer ensures k !in hand && k in hand + s.sendBuffer {
      forall n | 0 <= n < |hand| ensures hand[n] != k {}
    }
    hide Ascending, SentTo;
  }

  lemma HandLostSent(s: State, hand: seq<Call>)
    requires InOrder(s, hand) && SentOnce(s)
    ensures SentOnce(s.(lost := s.lost + set k | k in hand))
  {
    forall k | k in hand ensures k in hand + s.sendBuffer {}
    forall i | 0 <= i < |s.sent| ensures s.sent[i].call !in hand { assert SentTo(s.sent, s.sent[i].call); }
    hide Ascending, SentTo;
  }

  /** An interrupted flush puts what is left back, ahead of what was buffered meanwhile. */
  lemma PutBackLined(s: State, packets: seq<Call>)
    requires Lined(s, packets)
    ensures Lined(s.(sendBuffer := Unsettled(s, packets) + s.sendBuffer), [])
  {
    SplitAscending(packets, s.sendBuffer);
    UnsettledFacts(s, packets);
    BelowPart(s.sendBuffer, packets, Unsettled(s, packets));
    JoinAscending(Unsettled(s, packets), s.sendBuffer);
    PutBackRest(s, packets, Unsettled(s, packets));
  }

  lemma PutBackRest(s: State, packets: seq<Call>, back: seq<Call>)
    requires Lined(s, packets) && Ascending(back + s.sendBuffer)
    requires forall k :: k in back <==> k in packets && !IsSettled(s, k)
    ensures Lined(s.(sendBuffer := back + s.sendBuffer), [])
  {
    assert [] + (back + s.sendBuffer) == back + s.sendBuffer;
    forall k ensures k in back + s.sendBuffer <==> k in back || k in s.sendBuffer {}
    forall k | k in back + s.sendBuffer ensures k in packets + s.sendBuffer {}
    hide Ascending, SentTo;
  }

  lemma ConnectLined(s: State)
    requires Lined(s, []) && s.stack == []
    ensures Lined(s.(connected := true, sendBuffer := []), s.sendBuffer)
  {
    assert [] + s.sendBuffer == s.sendBuffer && s.sendBuffer + [] == s.sendBuffer;
    hide Ascending, SentTo;
  }

  // Steps.

  lemma HandPop(stack: seq<Frame>)
    requires stack != [] && FlushAtBottom(stack)
    ensures !stack[0].Flushing? ==> Hand(stack[1..]) == Hand(stack) && FlushAtBottom(stack[1..])
    ensures stack[0].Flushing? ==> stack == [stack[0]] && Hand(stack) == stack[0].packets
  {}

  lemma HandPush(stack: seq<Frame>, f: Frame)
    requires FlushAtBottom(stack) && !f.Flushing?
    ensures Hand([f] + stack) == Hand(stack) && FlushAtBottom([f] + stack)
  {}

  lemma EmitSound(s: State, timed: bool, isVolatile: bool)
    requires Sound(s)
    ensures Sound(Emit(s, timed, isVolatile))
  {
    EmitHandles(s, timed, isVolatile);
    if s.connected {
      EmitObserves(s, timed, isVolatile, Hand(s.stack));
      HandPush(s.stack, Observing(|s.timed|));
    } else {
      EmitWaits(s, timed, isVolatile, Hand(s.stack));
    }
    hide Callbacks, Handles, Lined;
    EmitReady(s, timed, isVolatile);
  }

  lemma EmitReady(s: State, timed: bool, isVolatile: bool)
    requires FlushReady(s)
    ensures FlushReady(Emit(s, timed, isVolatile))
  {}

  lemma LinedInRange(s: State, hand: seq<Call>)
    requires Lined(s, hand)
    ensures forall k :: k in hand ==> k < |s.timed|
  {
    assert forall k :: k in hand ==> k in hand + s.sendBuffer;
  }

  lemma ConnectSound(s: State)
    requires Sound(s) && s.stack == [] && !s.connected
    ensures Sound(Connect(s))
  {
    var p := s.(connected := true, sendBuffer := []);
    ConnectLined(s);
    LinedInRange(p, s.sendBuffer);
    assert Handles(p);
    FlushLined(p, s.sendBuffer);
    FlushHandles(p, s.sendBuffer);
    hide Lined, Handles, FlushReady, Callbacks, FlushFrom;
  }

  lemma PopHandles(s: State)
    requires Handles(s) && s.stack != []
    ensures Handles(s.(stack := s.stack[1..]))
  {
    hide AllOpen;
    PopMembers(s.stack);
  }

  lemma FlushSound(s: State, packets: seq<Call>, encodes: bool)
    requires Sound(s) && s.stack != [] && s.stack[0] == Flushing(packets)
    ensures Sound(FlushNext(s.(stack := s.stack[1..]), packets, encodes))
  {
    var p := s.(stack := s.stack[1..]);
    HandPop(s.stack);
    PopLined(s, packets);
    PopHandles(s);
    assert p.stack == [] && s.stack[0] in s.stack;
    if s.connected && !encodes {
      HandLost(p, packets);
      hide Lined, Callbacks, AllOpen;
    } else if s.connected {
      HeadSent(p, packets);
      var q := Send(p, packets[0], true);
      LinedInRange(q, packets[1..]);
      FlushLined(q, packets[1..]);
      assert Handles(q);
      FlushHandles(q, packets[1..]);
      hide Lined, Handles, FlushReady, Callbacks, FlushFrom;
    } else {
      PutBackLined(p, packets);
      hide Lined, Callbacks, AllOpen, Unsettled;
    }
  }

  lemma RejectReady(s: State, rest: seq<Call>)
    requires FlushReady(s) && !s.connected
    ensures FlushReady(RejectNext(s, rest)) && Hand(RejectNext(s, rest).stack) == Hand(s.stack)
  {
    if rest != [] && rest[0] < |s.timed| { HandPush(s.stack, Rejecting(rest[1..])); }
  }

  lemma RejectLined(s: State, rest: seq<Call>, hand: seq<Call>)
    requires Lined(s, hand)
    ensures Lined(RejectNext(s, rest), hand)
  {
    hide Lined, Settle;
    if rest != [] && rest[0] < |s.timed| {
      SettleLined(s, rest[0], Disconnected, hand);
      PushLined(Settle(s, rest[0], Disconnected), Rejecting(rest[1..]), hand);
      assert Settle(s, rest[0], Disconnected).stack == s.stack by { SettleStack(s, rest[0]); }
    }
  }

  lemma SettleStack(s: State, k: Call)
    requires k < |s.timed|
    ensures Settle(s, k, Disconnected).stack == s.stack
  {}

  lemma RejectSound(s: State, rest: seq<Call>)
    requires Sound(s) && !s.connected && AllOpen(s.timed, rest)
    requires forall f: Frame :: f in s.stack ==> !f.Rejecting?
    ensures Sound(RejectNext(s, rest))
  {
    RejectHandles(s, rest);
    RejectReady(s, rest);
    RejectLined(s, rest, Hand(s.stack));
    hide Lined, Handles, FlushReady, Callbacks, RejectNext;
  }

  lemma LostSound(s: State)
    requires Sound(s)
    ensures Sound(Disconnect(s))
  {
    if s.connected {
      var p := s.(connected := false, pendingAcks := []);
      assert AllOpen(s.timed, s.pendingAcks);
      assert forall f: Frame :: f in s.stack ==> !f.Rejecting?;
      LostLined(s, p);
      assert Handles(p) && FlushReady(p) by { NoneOpen(p.timed); }
      hide Lined, Handles, FlushReady, Callbacks, AllOpen, RejectNext;
      RejectSound(p, s.pendingAcks);
    }
  }

  lemma LostLined(s: State, p: State)
    requires Lined(s, Hand(s.stack)) && p == s.(connected := false, pendingAcks := [])
    ensures Lined(p, Hand(p.stack))
  {
    hide Ascending, SentTo;
  }

  lemma SettleSound(s: State, k: Call, how: How)
    requires Sound(s) && s.stack == [] && k < |s.timed| && s.timed[k] == Open
    ensures Sound(Settle(s, k, how))
  {
    SettleCallbacks(s, k, how);
    SettleHandles(s, k, how);
    SettleLined(s, k, how, []);
    hide Lined, Handles, Callbacks;
  }

  lemma ObservingSound(s: State, k: Call, encodes: bool)
    requires Sound(s) && s.stack != [] && s.stack[0] == Observing(k)
    ensures Sound(SendDirect(s.(stack := s.stack[1..]), k, encodes))
  {
    HandPop(s.stack);
    PopHandles(s);
    ObservedLined(s, k, Hand(s.stack), encodes);
    PopMembers(s.stack);
    hide Lined, Callbacks, AllOpen;
  }

  lemma RejectingSound(s: State, rest: seq<Call>)
    requires Sound(s) && s.stack != [] && s.stack[0] == Rejecting(rest)
    ensures Sound(RejectNext(s.(stack := s.stack[1..]), rest))
  {
    var p := s.(stack := s.stack[1..]);
    HandPop(s.stack);
    PopHandles(s);
    PopLined(s, Hand(s.stack));
    PopMembers(s.stack);
    assert s.stack[0] in s.stack;
    forall f: Frame | f in p.stack ensures !f.Rejecting? {
      var j :| 0 <= j < |p.stack| && p.stack[j] == f;
      assert s.stack[j + 1] == f;
    }
    hide Lined, Handles, Callbacks, AllOpen, RejectNext;
    assert FlushReady(p);
    RejectSound(p, rest);
  }

  lemma StepSound(s: State, e: Event)
    requires Sound(s)
    ensures Sound(Step(s, e))
  {
    if Enabled(s, e) {
      match e {
        case EmitCall(timed, isVolatile) => EmitSound(s, timed, isVolatile);
        case Established => ConnectSound(s);
        case Lost => LostSound(s);
        case Answer(k) => if !IsSettled(s, k) { hide Sound; SettleSound(s, k, Answered); }
        case Timer(k) => assert s.timed[k] == Open; hide Sound; SettleSound(s, k, TimedOut);
        case Return(encodes) =>
          hide Sound, FlushNext, RejectNext;
          match s.stack[0] {
            case Observing(k) => ObservingSound(s, k, encodes);
            case Flushing(packets) => FlushSound(s, packets, encodes);
            case Rejecting(rest) => RejectingSound(s, rest);
          }
      }
    }
  }

  lemma {:induction false} RunSound(s: State, events: seq<Event>)
    requires Sound(s)
    ensures Sound(Run(s, events))
    decreases |events|
  {
    hide Sound, Step;
    if events != [] {
      StepSound(s, events[0]);
      RunSound(Step(s, events[0]), events[1..]);
    }
  }

  lemma Reached(events: seq<Event>)
    ensures Sound(Run(IDLE, events))
  {
    hide Sound, Run;
    IdleSound();
    RunSound(IDLE, events);
  }

  lemma IdleSound()
    ensures Sound(IDLE)
  {}

  // Whole runs.

  /** A callback passed to a timed emit never runs twice, whatever races it. */
  lemma NeverTwice(events: seq<Event>, i: nat, j: nat)
    requires i < j < |Run(IDLE, events).ran|
    ensures Run(IDLE, events).ran[i].call != Run(IDLE, events).ran[j].call
  {
    hide Run;
    Reached(events);
    hide Handles, Lined, FlushReady;
  }

  /**
    A timed callback has run exactly if its timer is no longer armed; while it has not,
    the timer can still fire once nothing is under way, and then it has run.
   */
  lemma RunsByExpiry(events: seq<Event>, k: Call)
    requires k < |Run(IDLE, events).timed| && Run(IDLE, events).timed[k] != Untimed
    ensures var s := Run(IDLE, events);
            && (HasRun(s.ran, k) <==> k !in s.armed)
            && (s.stack == [] && !HasRun(s.ran, k) ==>
                  Enabled(s, Timer(k)) && HasRun(Step(s, Timer(k)).ran, k))
  {
    hide Run;
    Reached(events);
    var s := Run(IDLE, events);
    if k in s.armed {
      assert Settle(s, k, TimedOut).ran[|s.ran|].call == k;
    }
    hide Handles, Lined, FlushReady;
  }

  /** A kept cancel handle is unsettled, so calling it without a check runs its callback for the first time. */
  lemma HandlesAreUnsettled(events: seq<Event>, k: Call)
    requires k in Run(IDLE, events).pendingAcks
    ensures var s := Run(IDLE, events); k < |s.timed| && s.timed[k] == Open && !HasRun(s.ran, k)
  {
    hide Run;
    Reached(events);
    var s := Run(IDLE, events);
    var i :| 0 <= i < |s.pendingAcks| && s.pendingAcks[i] == k;
    hide Lined, FlushReady;
  }

  /** A packet is sent at most once, and never from the buffer once its callback has settled. */
  lemma SentAtMostOnce(events: seq<Event>)
    ensures var s := Run(IDLE, events);
            && (forall i, j :: 0 <= i < j < |s.sent| ==> s.sent[i].call != s.sent[j].call)
            && (forall i :: 0 <= i < |s.sent| && s.sent[i].buffered ==> !s.sent[i].settled)
  {
    hide Run;
    Reached(events);
    hide Handles, FlushReady, Callbacks, InOrder, NoneLost;
  }

  // Emissions that are lost.

  /**
    The step loses call `k`: its payload cannot be encoded, or it stands in the hand of a
    flush whose observed packet cannot.
   */
  predicate Loses(s: State, e: Event, k: Call) {
    && e == Return(false) && s.stack != []
    && match s.stack[0]
       case Observing(j) => j == k
       case Flushing(packets) => s.connected && k in packets
       case Rejecting(_) => false
  }

  ghost predicate LostInRun(s: State, events: seq<Event>, k: Call)
    decreases |events|
  {
    events != [] && (Loses(s, events[0], k) || LostInRun(Step(s, events[0]), events[1..], k))
  }

  lemma {:induction false} FlushLoses(s: State, packets: seq<Call>)
    ensures FlushFrom(s, packets).lost == s.lost
    decreases |packets|
  {
    if packets != [] && IsSettled(s, packets[0]) { FlushLoses(s, packets[1..]); }
  }

  lemma StepLoses(s: State, e: Event, k: Call)
    ensures k in Step(s, e).lost <==> k in s.lost || Loses(s, e, k)
  {
    hide FlushFrom;
    if Enabled(s, e) {
      match e {
        case Established => FlushLoses(s.(connected := true, sendBuffer := []), s.sendBuffer);
        case Return(encodes) =>
          var p := s.(stack := s.stack[1..]);
          match s.stack[0] {
            case Flushing(packets) =>
              if packets != [] { FlushLoses(Send(p, packets[0], true), packets[1..]); }
            case _ =>
          }
        case _ =>
      }
    }
  }

  lemma {:induction false} RunLoses(s: State, events: seq<Event>, k: Call)
    ensures k in Run(s, events).lost <==> k in s.lost || LostInRun(s, events, k)
    decreases |events|
  {
    hide Step, Loses;
    if events != [] {
      StepLoses(s, events[0], k);
      RunLoses(Step(s, events[0]), events[1..], k);
    }
  }

  /**
    Of an emission that was not dropped as volatile, and whose callback has not settled: it
    has been sent, is being sent, is held by the flush under way, or is buffered, if and only
    if its own payload did not fail to encode and it never stood in the hand of a flush one
    of whose observed packets did. What waits is in the order of emission, the flush ahead
    of the buffer, and unsent.
   */
  lemma NothingElseIsLost(events: seq<Event>, k: Call)
    requires k < |Run(IDLE, events).timed|
    ensures var s := Run(IDLE, events);
            var waiting := Hand(s.stack) + s.sendBuffer;
            && Ascending(waiting)
            && (k !in s.dropped && s.timed[k] != Settled ==>
                  (SentTo(s.sent, k) || k in waiting || Observing(k) in s.stack <==> !LostInRun(IDLE, events, k)))
            && (k in waiting ==> !SentTo(s.sent, k))
  {
    hide Run, LostInRun;
    Reached(events);
    RunLoses(IDLE, events, k);
    var s := Run(IDLE, events);
    if SentTo(s.sent, k) { var i :| 0 <= i < |s.sent| && s.sent[i].call == k; }
    hide Handles, FlushReady, Callbacks, Ascending, SentTo;
  }

  /**
    A flush whose client has been disconnected by an observer: every unsettled packet it held
    waits again, with all that was buffered meanwhile, in the order of emission.
   */
  lemma InterruptedFlushPutsBack(events: seq<Event>, packets: seq<Call>, encodes: bool)
    requires var s := Run(IDLE, events); s.stack != [] && s.stack[0] == Flushing(packets) && !s.connected
    ensures var s := Run(IDLE, events);
            var q := Step(s, Return(encodes));
            && q.sent == s.sent && q.lost == s.lost && q.stack == []
            && Ascending(q.sendBuffer)
            && forall k :: k in q.sendBuffer <==> (k in packets && !IsSettled(s, k)) || k in s.sendBuffer
  {
    hide Run;
    Reached(events);
    var s := Run(IDLE, events);
    HandPop(s.stack);
    StepSound(s, Return(encodes));
    var q := Step(s, Return(encodes));
    assert Hand(q.stack) + q.sendBuffer == q.sendBuffer;
    SameSettled(s, s.(stack := s.stack[1..]), packets);
    SplitAscending(packets, s.sendBuffer);
    UnsettledFacts(s, packets);
    assert q.sendBuffer == Unsettled(s, packets) + s.sendBuffer;
    hide Handles, FlushReady, Callbacks, SentOnce, SentTo, NoneLost, Unsettled;
  }

  /** A flush whose packet cannot be encoded sends and keeps nothing of what it held. */
  lemma FailedFlushLosesItsHand(events: seq<Event>, packets: seq<Call>, k: Call)
    requires var s := Run(IDLE, events); s.stack != [] && s.stack[0] == Flushing(packets) && s.connected
    requires k in packets
    ensures var q := Step(Run(IDLE, events), Return(false));
            q.stack == [] && !SentTo(q.sent, k) && k !in q.sendBuffer && LostInRun(IDLE, events + [Return(false)], k)
  {
    hide Run, LostInRun;
    Reached(events);
    var s := Run(IDLE, events);
    HandPop(s.stack);
    assert s.stack[0] in s.stack;
    StepSound(s, Return(false));
    StepLoses(s, Return(false), k);
    RunStep(IDLE, events, Return(false));
    RunLoses(IDLE, events + [Return(false)], k);
    var q := Step(s, Return(false));
    assert Hand(q.stack) + q.sendBuffer == q.sendBuffer;
    assert SentTo(q.sent, k) ==> k !in q.lost;
    hide Handles, FlushReady, Callbacks, NoneLost, Ascending, SentTo;
  }

  lemma {:induction false} RunStep(s: State, events: seq<Event>, e: Event)
    ensures Run(s, events + [e]) == Step(Run(s, events), e)
    decreases |events|
  {
    hide Step;
    if events == [] {
      assert [] + [e] == [e];
      assert Run(Step(s, e), []) == Step(s, e);
    } else {
      assert (events + [e])[0] == events[0] && (events + [e])[1..] == events[1..] + [e];
      RunStep(Step(s, events[0]), events[1..], e);
    }
  }

  /** Three emissions before the connection, the second of which cannot be encoded. */
  const THREE := [EmitCall(false, false), EmitCall(false, false), EmitCall(false, false),
                  Established, Return(true), Return(false)]

  const BUFFERED := IDLE.(timed := [Untimed, Untimed, Untimed], sendBuffer := [0, 1, 2])

  lemma BuffersThree()
    ensures Step(Step(Step(IDLE, THREE[0]), THREE[1]), THREE[2]) == BUFFERED
  {
    var s1 := Step(IDLE, THREE[0]);
    var s2 := Step(s1, THREE[1]);
    assert s2 == IDLE.(timed := [Untimed, Untimed], sendBuffer := [0, 1]);
  }

  lemma FlushFails()
    ensures Step(Step(Step(BUFFERED, THREE[3]), THREE[4]), THREE[5]) ==
            BUFFERED.(connected := true, sendBuffer := [], lost := {1, 2}, sent := [Sent(0, true, false)])
  {
    var s4 := Step(BUFFERED, THREE[3]);
    assert s4 == BUFFERED.(connected := true, sendBuffer := [], stack := [Flushing([0, 1, 2])]);
    var s5 := Step(s4, THREE[4]);
    assert [0, 1, 2][1..] == [1, 2];
    assert s5 == s4.(stack := [Flushing([1, 2])], sent := [Sent(0, true, false)]);
    assert (set k | k in [1, 2]) == {1, 2};
  }

  /** The first is sent; the other two are neither sent nor put back. */
  lemma FailedEncodingLosesTheRest()
    ensures Run(IDLE, THREE) == IDLE.(connected := true, timed := [Untimed, Untimed, Untimed],
                                      lost := {1, 2}, sent := [Sent(0, true, false)])
  {
    hide Step, Run;
    BuffersThree();
    FlushFails();
    RunSix(IDLE, THREE[0], THREE[1], THREE[2], THREE[3], THREE[4], THREE[5]);
  }

  lemma RunSix(s: State, a: Event, b: Event, c: Event, d: Event, e: Event, f: Event)
    ensures Run(s, [a, b, c, d, e, f]) == Step(Step(Step(Step(Step(Step(s, a), b), c), d), e), f)
  {
    hide Step, Run;
    RunFive(s, a, b, c, d, e);
    RunStep(s, [a, b, c, d, e], f);
    assert [a, b, c, d, e] + [f] == [a, b, c, d, e, f];
  }

  lemma RunNone(s: State)
    ensures Run(s, []) == s
  {}

  lemma {:induction false} SameSettled(s: State, q: State, packets: seq<Call>)
    requires q.timed == s.timed
    ensures Unsettled(q, packets) == Unsettled(s, packets)
  {
    if packets != [] { SameSettled(s, q, packets[1..]); }
  }

  // The order of what is sent.

  /** No direct emission is made while the observers of another packet run. */
  predicate Calm(s: State, e: Event) {
    e.EmitCall? && s.connected ==> s.stack == []
  }

  ghost predicate CalmRun(s: State, events: seq<Event>)
    decreases |events|
  {
    events == [] || (Calm(s, events[0]) && CalmRun(Step(s, events[0]), events[1..]))
  }

  ghost predicate AllSentBelow(sent: seq<Sent>, k: Call) {
    forall i :: 0 <= i < |sent| ==> sent[i].call < k
  }

  /** What is sent rises, and stays below the packet being observed and whatever waits. */
  ghost predicate Rising(s: State, hand: seq<Call>) {
    && (forall i, j :: 0 <= i < j < |s.sent| ==> s.sent[i].call < s.sent[j].call)
    && (forall k :: k in hand || k in s.sendBuffer ==> AllSentBelow(s.sent, k))
  }

  ghost predicate OneObserved(s: State, hand: seq<Call>) {
    && (s.connected ==> s.sendBuffer == [])
    && (forall i :: 0 <= i < |s.stack| - 1 ==> !s.stack[i].Observing?)
    && (forall k: Call :: Observing(k) in s.stack ==>
          AllSentBelow(s.sent, k) && hand == [] && forall x :: x in s.sendBuffer ==> k < x)
  }

  ghost predicate InSequence(s: State, hand: seq<Call>) {
    Rising(s, hand) && OneObserved(s, hand)
  }

  /** Fewer packets wait, and no other is sent. */
  lemma FewerInSequence(s: State, q: State, hand: seq<Call>, next: seq<Call>)
    requires InSequence(s, hand) && q.sent == s.sent && (q.connected ==> q.sendBuffer == [])
    requires forall k :: k in next || k in q.sendBuffer ==> k in hand || k in s.sendBuffer
    requires forall k :: k in q.sendBuffer && (exists f: Frame :: f in q.stack && f.Observing?) ==> k in s.sendBuffer
    requires (exists f: Frame :: f in q.stack && f.Observing?) ==> next == []
    requires forall f: Frame :: f.Observing? && f in q.stack ==> f in s.stack
    requires forall i :: 0 <= i < |q.stack| - 1 ==> !q.stack[i].Observing?
    ensures InSequence(q, next)
  {
    hide AllSentBelow;
  }

  lemma EmitInSequence(s: State, timed: bool, isVolatile: bool)
    requires Sound(s) && InSequence(s, Hand(s.stack)) && (s.connected ==> s.stack == [])
    ensures var q := Emit(s, timed, isVolatile); InSequence(q, Hand(q.stack))
  {
    LinedInRange(s, Hand(s.stack));
    assert AllSentBelow(s.sent, |s.timed|);
    ObservedInRange(s);
    hide Sound;
    if s.connected {
      ObserveInSequence(s, timed);
    } else {
      BufferInSequence(s, timed, isVolatile);
    }
  }

  lemma ObserveInSequence(s: State, timed: bool)
    requires InSequence(s, []) && s.connected && s.stack == [] && AllSentBelow(s.sent, |s.timed|)
    ensures var q := Emit(s, timed, false); InSequence(q, Hand(q.stack))
  {
    hide AllSentBelow;
    assert Hand([Observing(|s.timed|)]) == [];
  }

  lemma BufferInSequence(s: State, timed: bool, isVolatile: bool)
    requires InSequence(s, Hand(s.stack)) && !s.connected && AllSentBelow(s.sent, |s.timed|)
    requires forall x: Call :: Observing(x) in s.stack ==> x < |s.timed|
    ensures var q := Emit(s, timed, isVolatile); InSequence(q, Hand(q.stack))
  {
    hide AllSentBelow, Hand;
  }

  lemma ObservedInRange(s: State)
    requires Sound(s)
    ensures forall x: Call :: Observing(x) in s.stack ==> x < |s.timed|
  {}

  lemma {:induction false} FlushInSequence(s: State, packets: seq<Call>)
    requires InSequence(s, packets) && s.stack == []
    ensures var q := FlushFrom(s, packets); InSequence(q, Hand(q.stack))
    decreases |packets|
  {
    if packets != [] {
      PopMembers(packets);
      if IsSettled(s, packets[0]) {
        assert InSequence(s, packets[1..]);
        FlushInSequence(s, packets[1..]);
      } else {
        var q := FlushFrom(s, packets);
        assert q.stack == [Flushing(packets)] && Hand(q.stack) == packets;
        hide AllSentBelow;
      }
    }
  }

  lemma SendInSequence(s: State, hand: seq<Call>, k: Call, buffered: bool, next: seq<Call>)
    requires Rising(s, hand) && AllSentBelow(s.sent, k) && forall x :: x in next || x in s.sendBuffer ==> k < x
    requires forall x :: x in next ==> x in hand
    ensures Rising(Send(s, k, buffered), next)
  {}

  lemma FlushNextInSequence(s: State, packets: seq<Call>, encodes: bool)
    requires Sound(s) && InSequence(s, packets) && s.stack == [Flushing(packets)]
    ensures var q := FlushNext(s.(stack := []), packets, encodes); InSequence(q, Hand(q.stack))
  {
    var p := s.(stack := []);
    if packets == [] {
    } else if !s.connected {
      SplitAscending(packets, s.sendBuffer);
      UnsettledFacts(p, packets);
      hide Sound, Unsettled;
      FewerInSequence(s, FlushNext(p, packets, encodes), packets, []);
    } else if !encodes {
      hide Sound;
      FewerInSequence(s, FlushNext(p, packets, encodes), packets, []);
    } else {
      SplitAscending(packets, s.sendBuffer);
      TailAscending(packets);
      PopMembers(packets);
      assert packets[0] in packets;
      forall x | x in packets[1..] ensures packets[0] < x { assert [packets[0]][0] < x; }
      SendInSequence(p, packets, packets[0], true, packets[1..]);
      hide Sound, Rising;
      FlushInSequence(Send(p, packets[0], true), packets[1..]);
    }
  }

  lemma ReturnInSequence(s: State, encodes: bool)
    requires Sound(s) && InSequence(s, Hand(s.stack)) && s.stack != []
    ensures var q := Step(s, Return(encodes)); InSequence(q, Hand(q.stack))
  {
    HandPop(s.stack);
    PopMembers(s.stack);
    assert s.stack[0] in s.stack;
    match s.stack[0] {
      case Flushing(packets) =>
        assert s.stack == [Flushing(packets)] && s.stack[1..] == [];
        FlushNextInSequence(s, packets, encodes);
      case Observing(k) =>
        assert s.stack == [Observing(k)] && s.stack[1..] == [];
        hide Sound;
        if encodes { SendInSequence(s, [], k, false, []); }
      case Rejecting(rest) =>
        RejectingInSequence(s, rest);
    }
  }

  lemma RejectingInSequence(s: State, rest: seq<Call>)
    requires Sound(s) && InSequence(s, Hand(s.stack)) && s.stack != [] && s.stack[0] == Rejecting(rest)
    ensures var q := RejectNext(s.(stack := s.stack[1..]), rest); InSequence(q, Hand(q.stack))
  {
    var p := s.(stack := s.stack[1..]);
    HandPop(s.stack);
    PopMembers(s.stack);
    SplitAscending(Hand(s.stack), s.sendBuffer);
    hide Sound;
    FewerInSequence(s, p, Hand(s.stack), Hand(p.stack));
    RejectInSequence(p, rest);
  }

  lemma RejectInSequence(s: State, rest: seq<Call>)
    requires InSequence(s, Hand(s.stack)) && FlushAtBottom(s.stack) && Ascending(s.sendBuffer)
    ensures var q := RejectNext(s, rest); InSequence(q, Hand(q.stack))
  {
    if rest != [] && rest[0] < |s.timed| {
      WithoutAscending(s.sendBuffer, rest[0]);
      HandPush(s.stack, Rejecting(rest[1..]));
      var q := RejectNext(s, rest);
      forall f: Frame ensures f in q.stack <==> f in s.stack || f == Rejecting(rest[1..]) {}
      assert forall i :: 0 < i < |q.stack| ==> q.stack[i] == s.stack[i - 1];
      hide Ascending, Without, AllSentBelow;
    }
  }

  lemma SettleInSequence(s: State, k: Call, how: How)
    requires InSequence(s, Hand(s.stack)) && Ascending(s.sendBuffer) && k < |s.timed|
    ensures var q := Settle(s, k, how); InSequence(q, Hand(q.stack))
  {
    WithoutAscending(s.sendBuffer, k);
    assert s.sendBuffer == [] ==> Without(s.sendBuffer, k) == [];
    hide Ascending, Without, AllSentBelow;
  }

  lemma BufferAscends(s: State)
    requires Sound(s)
    ensures Ascending(s.sendBuffer) && FlushAtBottom(s.stack)
  {
    SplitAscending(Hand(s.stack), s.sendBuffer);
  }

  lemma StepInSequence(s: State, e: Event)
    requires Sound(s) && InSequence(s, Hand(s.stack)) && Calm(s, e)
    ensures var q := Step(s, e); InSequence(q, Hand(q.stack))
  {
    BufferAscends(s);
    if Enabled(s, e) {
      match e {
        case EmitCall(timed, isVolatile) => EmitInSequence(s, timed, isVolatile);
        case Established =>
          hide Sound;
          FlushInSequence(s.(connected := true, sendBuffer := []), s.sendBuffer);
        case Lost =>
          hide Sound, RejectNext;
          if s.connected {
            var p := s.(connected := false, pendingAcks := []);
            assert InSequence(p, Hand(p.stack));
            RejectInSequence(p, s.pendingAcks);
          }
        case Answer(k) => hide Sound; SettleInSequence(s, k, Answered);
        case Timer(k) => hide Sound; SettleInSequence(s, k, TimedOut);
        case Return(encodes) => ReturnInSequence(s, encodes);
      }
    }
  }

  lemma {:induction false} RunInSequence(s: State, events: seq<Event>)
    requires Sound(s) && InSequence(s, Hand(s.stack)) && CalmRun(s, events)
    ensures var q := Run(s, events); InSequence(q, Hand(q.stack))
    decreases |events|
  {
    hide Sound, InSequence, Step, Calm;
    if events != [] {
      StepSound(s, events[0]);
      StepInSequence(s, events[0]);
      RunInSequence(Step(s, events[0]), events[1..]);
    }
  }

  /**
    Packets are sent in the order of emission, buffered or not, however often the client
    reconnects, as long as no direct emission is made while the observers of another packet run.
   */
  lemma SentInOrder(events: seq<Event>, i: nat, j: nat)
    requires CalmRun(IDLE, events) && i < j < |Run(IDLE, events).sent|
    ensures Run(IDLE, events).sent[i].call < Run(IDLE, events).sent[j].call
  {
    hide Run, CalmRun, Sound;
    IdleSound();
    RunInSequence(IDLE, events);
  }

  /** An emission made by the observers of another overtakes it. */
  lemma NestedEmissionOvertakes()
    ensures var s := Run(IDLE, [Established, EmitCall(false, false), EmitCall(false, false), Return(true), Return(true)]);
            s.sent == [Sent(1, false, false), Sent(0, false, false)]
  {
    var s1 := Step(IDLE, Established);
    assert s1 == IDLE.(connected := true);
    var s2 := Step(s1, EmitCall(false, false));
    assert s2 == s1.(timed := [Untimed], stack := [Observing(0)]);
    var s3 := Step(s2, EmitCall(false, false));
    assert s3 == s1.(timed := [Untimed, Untimed], stack := [Observing(1), Observing(0)]);
    var s4 := Step(s3, Return(true));
    assert s4 == s3.(stack := [Observing(0)], sent := [Sent(1, false, false)]);
    var s5 := Step(s4, Return(true));
    assert s5 == s4.(stack := [], sent := [Sent(1, false, false), Sent(0, false, false)]);
    RunFive(IDLE, Established, EmitCall(false, false), EmitCall(false, false), Return(true), Return(true));
  }

  lemma RunFive(s: State, a: Event, b: Event, c: Event, d: Event, e: Event)
    ensures Run(s, [a, b, c, d, e]) == Step(Step(Step(Step(Step(s, a), b), c), d), e)
  {
    hide Step, Run;
    RunNone(s);
    RunStep(s, [], a);
    RunStep(s, [a], b);
    RunStep(s, [a, b], c);
    RunStep(s, [a, b, c], d);
    RunStep(s, [a, b, c, d], e);
    assert [] + [a] == [a] && [a] + [b] == [a, b] && [a, b] + [c] == [a, b, c];
    assert [a, b, c] + [d] == [a, b, c, d] && [a, b, c, d] + [e] == [a, b, c, d, e];
  }
}
