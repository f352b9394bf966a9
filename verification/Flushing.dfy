/**
 * The send loop against the simplest sender. Sending in batches of 64 leaves exactly the state that sending one
 * datagram at a time leaves, and the two ways of sending twice are shown at work.
 */
module Flushing {
  import opened Wrappers
  import opened Addresses
  import opened World
  import opened EndpointState
  import opened EndpointSpec
  import opened Frames
  import opened Preservation
  import opened Delivery
  import opened TameHandlers

  /**
   * Handlers that run may write, allocate, retain and release, but not flush, read or close, and what they write can
   * be sent; and neither the socket nor an address causes an error.
   */
  ghost predicate Smooth(c: Config, s: State) {
    && !s.closed && Tame(s.w.script) && Polite(c, s.w.script) && s.log.inFlight == 0
    && (forall i :: 0 <= i < |s.w.sends| ==> s.w.sends[i] != Refused)
    && (forall i :: 0 <= i < |s.queue| ==> Sendable(c.ifaces, s.queue[i]))
  }

  // ---- what one call sends ----

  lemma {:induction false} FallbackIs(ifaces: map<string, nat>, batch: seq<Datagram>, sends: seq<SendOutcome>, index: nat)
    requires index <= |batch|
    requires forall i :: 0 <= i < |sends| ==> sends[i] != Refused
    requires forall i :: 0 <= i < |batch| ==> Sendable(ifaces, batch[i])
    ensures FallbackSend(ifaces, batch, sends, index) == Shifted(SendMany(|batch| - index, sends), index)
    decreases |batch| - index
  {
    hide Sendable; hide SendMany;
    if index == |batch| {
      SendNone(sends);
    } else if sends != [] && sends[0] == Taken {
      assert FallbackSend(ifaces, batch, sends, index) == FallbackSend(ifaces, batch, sends[1..], index + 1);
      FallbackIs(ifaces, batch, sends[1..], index + 1);
      TakenStep(|batch| - index, sends);
    } else {
      BlockedStep(|batch| - index, sends);
    }
  }

  function Shifted(r: SendResult, n: nat): SendResult {
    SendResult(r.taken + n, r.sent + n, r.again, r.error, r.rest)
  }

  lemma SendNone(sends: seq<SendOutcome>)
    ensures SendMany(0, sends) == SendResult(0, 0, false, None, sends)
  {
    assert sends[0..] == sends;
  }

  lemma BlockedStep(n: nat, sends: seq<SendOutcome>)
    requires n > 0 && (sends == [] || sends[0] == WouldBlock)
    ensures SendMany(n, sends) == SendResult(0, 0, true, None, if sends == [] then [] else sends[1..])
  {
  }

  lemma TakenStep(n: nat, sends: seq<SendOutcome>)
    requires n > 0 && sends != [] && sends[0] == Taken
    requires forall i :: 0 <= i < |sends| ==> sends[i] != Refused
    ensures SendMany(n, sends) == Shifted(SendMany(n - 1, sends[1..]), 1)
  {
    var k := TakenPrefix(sends[1..], n - 1);
    assert sends[1..][k..] == sends[k + 1..];
    if k + 1 < |sends| { assert sends[1..][k + 1..] == sends[k + 2..]; }
  }

  /** Without errors both platforms do the same, for a batch of any size. */
  lemma SendBatchIs(linux: bool, ifaces: map<string, nat>, batch: seq<Datagram>, sends: seq<SendOutcome>)
    requires batch != []
    requires forall i :: 0 <= i < |sends| ==> sends[i] != Refused
    requires forall i :: 0 <= i < |batch| ==> Sendable(ifaces, batch[i])
    ensures SendBatch(linux, ifaces, batch, sends) == SendMany(|batch|, sends)
  {
    if linux {
      if |batch| == 1 && sends != [] && sends[0] == Taken { TakenStep(1, sends); }
    } else {
      FallbackIs(ifaces, batch, sends, 0);
    }
  }

  // ---- one datagram after the other ----

  function Took(k: nat, rest: seq<SendOutcome>): SendResult { SendResult(k, k, false, None, rest) }

  /** `k` datagrams sent in one call and taken off the queue. */
  ghost function Sent(c: Config, s: State, k: nat, rest: seq<SendOutcome>): State
    requires k <= |s.queue|
  {
    DequeueN(c, Batched(s, Took(k, rest)), k)
  }

  /** A state with other sends behind it. */
  function Put(s: State, sends: seq<SendOutcome>, sent: seq<Datagram>, at: seq<nat>, n: nat, resent: bool, partial: bool): State {
    s.(w := s.w.(sends := sends),
       log := s.log.(sent := sent, sentAt := at, inFlight := n, resent := resent, partial := partial))
  }

  lemma BatchedPut(s: State, k: nat, rest: seq<SendOutcome>)
    requires k <= |s.queue|
    ensures Batched(s, Took(k, rest)) ==
            Put(s, rest, s.log.sent + s.queue[..k], s.log.sentAt + Positions(|s.log.gone|, k),
                if k == 0 then s.log.inFlight else k, s.log.resent || (k > 0 && s.log.inFlight > 0), s.log.partial)
  {
  }

  lemma PoppedPut(s: State, sends: seq<SendOutcome>, sent: seq<Datagram>, at: seq<nat>, n: nat, resent: bool, partial: bool)
    requires s.queue != [] && n > 0
    ensures Popped(Put(s, sends, sent, at, n, resent, partial)) == Put(Popped(s), sends, sent, at, n - 1, resent, partial)
  {
    hide Envelopes; hide Owned;
  }

  lemma PutPut(s: State, x: seq<SendOutcome>, xs: seq<Datagram>, xa: seq<nat>, xn: nat, xr: bool, xp: bool,
               y: seq<SendOutcome>, ys: seq<Datagram>, ya: seq<nat>, yn: nat, yr: bool, yp: bool)
    ensures Put(Put(s, x, xs, xa, xn, xr, xp), y, ys, ya, yn, yr, yp) == Put(s, y, ys, ya, yn, yr, yp)
  {
  }

  /** Sending `k` at once and taking one off is sending one, taking it off, and sending `k - 1` at once. */
  lemma SplitPopped(s: State, k: nat, rest: seq<SendOutcome>, mid: seq<SendOutcome>)
    requires 0 < k <= |s.queue| && s.log.inFlight == 0
    ensures Popped(Batched(s, Took(1, mid))).queue == s.queue[1..]
    ensures Popped(Batched(s, Took(k, rest))) == Batched(Popped(Batched(s, Took(1, mid))), Took(k - 1, rest))
  {
    hide Put; hide Batched; hide Popped;
    var l := s.log;
    var p := Popped(s);
    PoppedFields(s);
    BatchedPut(s, k, rest);
    BatchedPut(s, 1, mid);
    PoppedPut(s, rest, l.sent + s.queue[..k], l.sentAt + Positions(|l.gone|, k), k, l.resent, l.partial);
    PoppedPut(s, mid, l.sent + s.queue[..1], l.sentAt + Positions(|l.gone|, 1), 1, l.resent, l.partial);
    BatchedQuiet(s, Took(1, mid));
    var b := Popped(Batched(s, Took(1, mid)));
    PutFields(p, mid, l.sent + s.queue[..1], l.sentAt + Positions(|l.gone|, 1), 0, l.resent, l.partial);
    BatchedPut(b, k - 1, rest);
    assert s.queue[..k] == s.queue[..1] + s.queue[1..][..k - 1];
    assert l.sent + s.queue[..k] == b.log.sent + b.queue[..k - 1];
    assert l.sentAt + Positions(|l.gone|, k) == b.log.sentAt + Positions(|b.log.gone|, k - 1);
    PutPut(p, mid, l.sent + s.queue[..1], l.sentAt + Positions(|l.gone|, 1), 0, l.resent, l.partial,
           rest, l.sent + s.queue[..k], l.sentAt + Positions(|l.gone|, k), k - 1, l.resent, l.partial);
  }

  lemma PoppedFields(s: State)
    requires s.queue != []
    ensures var p := Popped(s);
            && p.queue == s.queue[1..] && |p.log.gone| == |s.log.gone| + 1 && p.closed == s.closed
            && p.log.sent == s.log.sent && p.log.accepted == s.log.accepted
            && p.w.script == s.w.script && p.w.sends == s.w.sends
  {
  }

  lemma PutFields(s: State, sends: seq<SendOutcome>, sent: seq<Datagram>, at: seq<nat>, n: nat, resent: bool, partial: bool)
    ensures var p := Put(s, sends, sent, at, n, resent, partial);
            && p.queue == s.queue && p.log.gone == s.log.gone && p.log.sent == sent && p.log.sentAt == at
            && p.log.inFlight == n && p.log.resent == resent && p.log.partial == partial
  {
  }

  /** What the simple sender does with the first datagram; handlers may run. */
  ghost function First(c: Config, s: State): State
    requires s.queue != [] && s.w.sends != []
  {
    Dequeue(c, Batched(s, Took(1, s.w.sends[1..])))
  }

  lemma FirstSmooth(c: Config, s: State)
    requires Smooth(c, s) && s.queue != [] && s.w.sends != []
    ensures var t := First(c, s);
            && Smooth(c, t) && Work(t) < Work(s) && t.w.sends == s.w.sends[1..]
            && s.log.accepted <= t.log.accepted && t.queue == s.queue[1..] + Since(s, t)
            && t.log.sent == s.log.sent + s.queue[..1] && Unmoved(s, t)
  {
    hide Spoken; hide Popped; hide Sendable; hide Tame; hide Polite; hide UpdateWritability; hide Dequeue; hide RequestedDatagram;
    var s1 := Batched(s, Took(1, s.w.sends[1..]));
    var s2 := Popped(s1);
    PoppedFields(s1);
    PoppedFlight(s1);
    BatchedUnmoved(s, Took(1, s.w.sends[1..]));
    PoppedUnmoved(s1);
    DequeueUpdates(c, s1);
    TameUpdate(c, true, s2);
    assert Work(First(c, s)) < Work(s1);
  }

  /** Sending, and taking off the queue, are not seen by the handlers or the poller. */
  lemma BatchedUnmoved(s: State, r: SendResult)
    requires r.taken <= |s.queue|
    ensures Unmoved(s, Batched(s, r))
  {
    hide Spoken;
  }

  lemma PoppedUnmoved(s: State)
    requires s.queue != []
    ensures Unmoved(s, Popped(s))
  {
    hide Spoken;
  }

  lemma DequeueUpdates(c: Config, s: State)
    requires s.queue != []
    ensures Dequeue(c, s) == UpdateWritability(c, Popped(s))
  {
  }

  lemma PoppedFlight(s: State)
    requires s.queue != []
    ensures Popped(s).log.inFlight == (if s.log.inFlight == 0 then 0 else s.log.inFlight - 1)
    ensures Popped(s).log.resent == s.log.resent
  {
  }

  /** Dequeuing `k` sent datagrams starts with the simple sender's first step. */
  lemma SentSplit(c: Config, s: State, k: nat, rest: seq<SendOutcome>)
    requires Smooth(c, s) && 0 < k <= |s.queue| && s.w.sends != []
    ensures k - 1 <= |First(c, s).queue| && Sent(c, s, k, rest) == Sent(c, First(c, s), k - 1, rest)
  {
    hide Popped; hide Dequeue; hide UpdateWritability; hide Batched; hide Tame; hide Polite; hide Sendable;
    BatchedQuiet(s, Took(k, rest));
    BatchedQuiet(s, Took(1, s.w.sends[1..]));
    var s1 := Batched(s, Took(k, rest));
    var b := Popped(Batched(s, Took(1, s.w.sends[1..])));
    PoppedFields(Batched(s, Took(1, s.w.sends[1..])));
    DequeueUpdates(c, s1);
    DequeueUpdates(c, Batched(s, Took(1, s.w.sends[1..])));
    SplitPopped(s, k, rest, s.w.sends[1..]);
    UpdateCommutes(c, b, Took(k - 1, rest));
    assert Dequeue(c, s1) == Batched(First(c, s), Took(k - 1, rest));
  }

  lemma OneTaken(sends: seq<SendOutcome>)
    requires sends != [] && sends[0] == Taken
    ensures SendMany(1, sends) == Took(1, sends[1..])
  {
  }

  /** One round of the simple sender. */
  lemma SimpleStep(c: Config, s: State)
    requires Smooth(c, s) && s.queue != [] && s.w.sends != [] && s.w.sends[0] == Taken
    ensures FlushLoop(c, 1, s) == FlushLoop(c, 1, First(c, s))
  {
    hide Dequeue; hide DequeueN; hide SendBatch; hide Sendable; hide SendMany; hide Batched; hide Tame; hide Polite;
    var batch := s.queue[..1];
    SendBatchIs(c.linux, c.ifaces, batch, s.w.sends);
    OneTaken(s.w.sends);
    var r := SendBatch(c.linux, c.ifaces, batch, s.w.sends);
    assert r == Took(1, s.w.sends[1..]);
    OneDequeue(c, Batched(s, r));
    assert DequeueN(c, Batched(s, r), 1) == First(c, s);
  }

  lemma BatchedQuiet(s: State, r: SendResult)
    requires r.taken <= |s.queue|
    ensures Batched(s, r).queue == s.queue && Batched(s, r).w.script == s.w.script && Batched(s, r).closed == s.closed
  {
  }

  lemma OneDequeue(c: Config, s: State)
    ensures DequeueN(c, s, 1) == Dequeue(c, s) && DequeueN(c, s, 0) == s
  {
    hide Dequeue;
    assert DequeueN(c, Dequeue(c, s), 0) == Dequeue(c, s);
  }

  /** The simple sender reaches the state in which a batch of `k` has been sent and taken off. */
  lemma {:induction false} SimpleRounds(c: Config, s: State, k: nat)
    requires Smooth(c, s) && k <= |s.queue| && k <= |s.w.sends|
    requires forall i :: 0 <= i < k ==> s.w.sends[i] == Taken
    ensures var t := Sent(c, s, k, s.w.sends[k..]);
            && FlushLoop(c, 1, s) == FlushLoop(c, 1, t)
            && Smooth(c, t) && t.w.sends == s.w.sends[k..] && Work(t) <= Work(s) && (k > 0 ==> Work(t) < Work(s))
            && s.log.accepted <= t.log.accepted && t.queue == s.queue[k..] + Since(s, t)
            && t.log.sent == s.log.sent + s.queue[..k]
    decreases k
  {
    hide FlushLoop; hide First; hide DequeueN; hide Batched; hide Smooth;
    if k == 0 {
      NothingSent(c, s);
      assert Since(s, s) == [];
    } else {
      var t := First(c, s);
      FirstSmooth(c, s);
      SimpleStep(c, s);
      SimpleRounds(c, t, k - 1);
      SentSplit(c, s, k, s.w.sends[k..]);
      assert s.w.sends[1..][k - 1..] == s.w.sends[k..];
      SentOn(s, t, Sent(c, s, k, s.w.sends[k..]), k);
    }
  }

  /** The first datagram, and then the others. */
  lemma SentOn(s: State, t: State, r: State, k: nat)
    requires 0 < k <= |s.queue| && s.log.accepted <= t.log.accepted <= r.log.accepted
    requires t.queue == s.queue[1..] + Since(s, t) && t.log.sent == s.log.sent + s.queue[..1]
    requires r.queue == t.queue[k - 1..] + Since(t, r) && r.log.sent == t.log.sent + t.queue[..k - 1]
    ensures r.queue == s.queue[k..] + Since(s, r) && r.log.sent == s.log.sent + s.queue[..k]
  {
    assert t.queue[..k - 1] == s.queue[1..k] && t.queue[k - 1..] == s.queue[k..] + Since(s, t);
    assert s.queue[..k] == s.queue[..1] + s.queue[1..k];
    assert Since(s, r) == Since(s, t) + Since(t, r);
  }

  lemma PutSelf(s: State)
    ensures Put(s, s.w.sends, s.log.sent, s.log.sentAt, s.log.inFlight, s.log.resent, s.log.partial) == s
  {
  }

  lemma NothingSent(c: Config, s: State)
    ensures Sent(c, s, 0, s.w.sends) == s && s.w.sends[0..] == s.w.sends
  {
    hide Put; hide Batched; hide DequeueN;
    assert s.log.sent + s.queue[..0] == s.log.sent;
    assert s.log.sentAt + Positions(|s.log.gone|, 0) == s.log.sentAt;
    BatchedPut(s, 0, s.w.sends);
    PutSelf(s);
    DequeueNone(c, s);
  }

  /** The outcomes left over do not influence what has been sent. */
  lemma {:induction false} SentRest(c: Config, s: State, k: nat, rest: seq<SendOutcome>)
    requires Smooth(c, s) && k <= |s.queue| && k <= |s.w.sends|
    requires forall i :: 0 <= i < k ==> s.w.sends[i] == Taken
    ensures Sent(c, s, k, rest) == Batched(Sent(c, s, k, s.w.sends[k..]), Took(0, rest))
    decreases k
  {
    hide First; hide DequeueN; hide Batched;
    if k == 0 {
      NothingSent(c, s);
      DequeueNone(c, Batched(s, Took(0, rest)));
    } else {
      FirstSmooth(c, s);
      SentSplit(c, s, k, rest);
      SentSplit(c, s, k, s.w.sends[k..]);
      assert s.w.sends[1..][k - 1..] == s.w.sends[k..];
      SentRest(c, First(c, s), k - 1, rest);
    }
  }

  lemma {:induction false} TakenPrefixIs(sends: seq<SendOutcome>, n: nat)
    requires forall i :: 0 <= i < |sends| ==> sends[i] != Refused
    ensures var k := TakenPrefix(sends, n);
            && (forall i :: 0 <= i < k ==> sends[i] == Taken)
            && (k < n && k < |sends| ==> sends[k] == WouldBlock)
    decreases n
  {
    if n > 0 && sends != [] && sends[0] == Taken { TakenPrefixIs(sends[1..], n - 1); }
  }

  /** The simple sender stops where the socket would block. */
  lemma SimpleBlocks(c: Config, s: State)
    requires Smooth(c, s) && s.queue != [] && (s.w.sends == [] || s.w.sends[0] == WouldBlock)
    ensures FlushLoop(c, 1, s) == (Batched(s, Took(0, if s.w.sends == [] then [] else s.w.sends[1..])), Blocked)
  {
    hide Sendable; hide SendBatch; hide DequeueN; hide Batched;
    var batch := s.queue[..1];
    SendBatchIs(c.linux, c.ifaces, batch, s.w.sends);
    var r := SendMany(1, s.w.sends);
    assert r == SendResult(0, 0, true, None, if s.w.sends == [] then [] else s.w.sends[1..]);
    BatchedAgain(s, r);
    DequeueNone(c, Batched(s, r));
  }

  lemma BatchedAgain(s: State, r: SendResult)
    requires r.taken <= |s.queue| && r.error.None?
    ensures Batched(s, r) == Batched(s, Took(r.taken, r.rest))
  {
  }

  /** Batches of any size leave the state that sending one datagram at a time leaves, and end the same way. */
  lemma {:induction false} BatchesAreSimple(c: Config, size: nat, s: State)
    requires Smooth(c, s) && size > 0
    ensures FlushLoop(c, size, s) == FlushLoop(c, 1, s)
    decreases Work(s)
  {
    hide Sendable; hide SendBatch; hide DequeueN; hide Batched; hide Tame; hide Polite; hide Work;
    if s.queue != [] {
      var n := Min(size, |s.queue|);
      var batch := s.queue[..n];
      var sends := s.w.sends;
      SendBatchIs(c.linux, c.ifaces, batch, sends);
      var r := SendMany(n, sends);
      var k := TakenPrefix(sends, n);
      TakenPrefixIs(sends, n);
      SimpleRounds(c, s, k);
      BatchedAgain(s, r);
      var t := Sent(c, s, k, sends[k..]);
      if k == n {
        BatchesAreSimple(c, size, t);
      } else {
        var rest := if k == |sends| then [] else sends[k + 1..];
        assert r == SendResult(k, k, true, None, rest);
        SentRest(c, s, k, rest);
        SimpleBlocks(c, t);
      }
    }
  }

  /** What a smooth flush leaves, whichever way it sends: `all` is the queue and what handlers add to it meanwhile. */
  ghost predicate Flushed(s: State, r: State, end: LoopEnd) {
    && !r.closed && Tame(r.w.script) && Unmoved(s, r)
    && s.log.accepted <= r.log.accepted
    && var all := s.queue + Since(s, r);
       var k := TakenPrefix(s.w.sends, |all|);
       && r.log.sent == s.log.sent + all[..k] && r.queue == all[k..]
       && end == (if k == |all| then Drained else Blocked)
  }

  lemma {:induction false} SimpleFlush(c: Config, s: State)
    requires Smooth(c, s)
    ensures Flushed(s, FlushLoop(c, 1, s).0, FlushLoop(c, 1, s).1)
    decreases Work(s)
  {
    hide Smooth; hide First; hide FlushLoop; hide Work; hide Flushed;
    if s.queue == [] {
      EmptyFlush(c, s);
    } else if SmoothNext(c, s) {
      var t := First(c, s);
      FirstSmooth(c, s);
      SimpleStep(c, s);
      SimpleFlush(c, t);
      FlushedStep(s, t, FlushLoop(c, 1, t).0, FlushLoop(c, 1, t).1);
    } else {
      BlockedSmooth(c, s);
    }
  }

  lemma EmptyFlush(c: Config, s: State)
    requires Smooth(c, s) && s.queue == []
    ensures Flushed(s, FlushLoop(c, 1, s).0, FlushLoop(c, 1, s).1)
  {
    hide Tame; hide Polite; hide Sendable; hide Spoken;
    assert Since(s, s) == [];
  }

  lemma BlockedSmooth(c: Config, s: State)
    requires Smooth(c, s) && s.queue != [] && !SmoothNext(c, s)
    ensures Flushed(s, FlushLoop(c, 1, s).0, FlushLoop(c, 1, s).1)
  {
    hide Smooth; hide FlushLoop; hide Batched; hide Unmoved; hide Tame;
    var rest := if s.w.sends == [] then [] else s.w.sends[1..];
    SmoothBlocks(c, s);
    SimpleBlocks(c, s);
    BatchedNothing(s, rest);
    var r := Batched(s, Took(0, rest));
    assert Since(s, r) == [] && s.queue + Since(s, r) == s.queue;
  }

  lemma SmoothBlocks(c: Config, s: State)
    requires Smooth(c, s) && !SmoothNext(c, s)
    ensures s.w.sends == [] || s.w.sends[0] == WouldBlock
    ensures !s.closed && Tame(s.w.script)
  {
    hide Sendable; hide Tame; hide Polite;
  }

  predicate SmoothNext(c: Config, s: State) { s.w.sends != [] && s.w.sends[0] == Taken }

  lemma FlushedStep(s: State, t: State, r: State, end: LoopEnd)
    requires s.queue != [] && s.w.sends != [] && s.w.sends[0] == Taken && t.w.sends == s.w.sends[1..]
    requires s.log.accepted <= t.log.accepted && t.queue == s.queue[1..] + Since(s, t)
    requires t.log.sent == s.log.sent + s.queue[..1] && Unmoved(s, t) && Flushed(t, r, end)
    ensures Flushed(s, r, end)
  {
    hide Spoken; hide Tame;
    var all, after := s.queue + Since(s, r), t.queue + Since(t, r);
    assert Since(s, r) == Since(s, t) + Since(t, r);
    assert all[1..] == after && all[..1] == s.queue[..1];
    var k := TakenPrefix(t.w.sends, |after|);
    assert TakenPrefix(s.w.sends, |all|) == k + 1;
    assert all[..k + 1] == all[..1] + after[..k] && all[k + 1..] == after[k..];
  }

  /** A smooth flush sends as much as the socket takes, in order, keeps the rest, and says which of the two it was. */
  lemma SmoothFlush(c: Config, size: nat, s: State)
    requires Smooth(c, s) && size > 0
    ensures Flushed(s, FlushLoop(c, size, s).0, FlushLoop(c, size, s).1)
  {
    hide Smooth; hide FlushLoop; hide Flushed;
    BatchesAreSimple(c, size, s);
    SimpleFlush(c, s);
  }

  lemma BatchedNothing(s: State, rest: seq<SendOutcome>)
    ensures var r := Batched(s, Took(0, rest));
            && r.queue == s.queue && r.log.sent == s.log.sent && r.log.accepted == s.log.accepted && Unmoved(s, r)
            && r.closed == s.closed && r.w.script == s.w.script
  {
    hide Spoken;
  }
}
