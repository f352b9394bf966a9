/** Where the code does not do what a caller may expect, with the inputs that show it. */
module Hazards {
  import opened Wrappers
  import opened Addresses
  import opened World
  import opened EndpointState
  import opened EndpointSpec
  import opened Frames
  import opened Preservation
  import opened Runs
  import opened Delivery
  import opened TameHandlers
  import opened Flushing
  import opened Submission

  lemma Stays(c: Config, s: State, r: State)
    requires Base(c, s, r)
    ensures s.log.resent ==> r.log.resent
    ensures Sound(s) ==> Sound(r)
    ensures Whole(c, s) ==> Whole(c, r)
    ensures s.log.depth == r.log.depth
  {
  }

  // ---- silent handlers ----

  lemma QuietHandlers(c: Config, s: State)
    requires s.w.script == []
    ensures RunHandler(c, s) == s
  {
  }

  lemma QuietNotify(c: Config, s: State)
    requires s.w.script == []
    ensures Notify(c, s) == s
  {
    hide RunHandler;
    QuietHandlers(c, s);
  }

  lemma QuietUpdate(c: Config, s: State)
    requires s.w.script == [] && !s.closed
    ensures UpdateWritability(c, s) == Settled(c, s)
  {
    hide Notify;
    QuietNotify(c, Settled(c, s));
  }

  // ---- a head that is in flight ----

  /** A flush that starts with a sendable head already in flight sends it again. */
  lemma FlushResends(c: Config, s: State)
    requires Whole(c, s) && !s.closed && c.mode != Completion && s.log.inFlight > 0
    requires |s.queue| > 0 && s.w.sends != [] && s.w.sends[0] == Taken
    requires forall i :: 0 <= i < |s.queue| ==> Sendable(c.ifaces, s.queue[i])
    ensures FlushOutbound(c, s).s.log.resent
  {
    hide FlushLoop; hide Fire; hide Base; hide EnableWriteInterest; hide DisableWriteInterest; hide Whole; hide Sendable;
    StartWhole(c, s);
    LoopResends(c, StartLoop(s));
    AfterLoop(c, s);
  }

  /** Nothing after the send loop makes a datagram unsent. */
  lemma AfterLoop(c: Config, s: State)
    requires Whole(c, s) && c.mode != Completion
    requires FlushLoop(c, MAX_WRITE_BATCH, StartLoop(s)).0.log.resent
    ensures FlushOutbound(c, s).s.log.resent
  {
    hide FlushLoop; hide Fire; hide Base; hide EnableWriteInterest; hide DisableWriteInterest; hide Whole;
    hide StartLoop; hide EndLoop;
    var (s1, end) := FlushLoop(c, MAX_WRITE_BATCH, StartLoop(s));
    StartWhole(c, s);
    FlushLoopFramed(c, MAX_WRITE_BATCH, StartLoop(s));
    Stays(c, StartLoop(s), s1);
    InterestBase(c, s1);
    EndKeeps(s1);
    EndKeeps(EnableWriteInterest(c, s1).s);
    if end == Drained {
      var o := DisableWriteInterest(c, s1);
      EndKeeps(o.s);
      if o.error.None? {
        Stays(c, s1, o.s);
        EndSound(c, o.s);
        FireFramed(c, EndLoop(o.s), FlushComplete);
        Stays(c, EndLoop(o.s), Fire(c, EndLoop(o.s), FlushComplete));
      }
    }
  }

  lemma EndKeeps(s: State)
    ensures EndLoop(s).log.resent == s.log.resent
  {
  }

  lemma EndSound(c: Config, s: State)
    requires Whole(c, s)
    ensures Sound(EndLoop(s)) && EndLoop(s).log.resent == s.log.resent
  {
  }

  lemma LoopResends(c: Config, s: State)
    requires Whole(c, s) && !s.closed && c.mode != Completion && s.log.inFlight > 0
    requires |s.queue| > 0 && s.w.sends != [] && s.w.sends[0] == Taken
    requires forall i :: 0 <= i < |s.queue| ==> Sendable(c.ifaces, s.queue[i])
    ensures FlushLoop(c, MAX_WRITE_BATCH, s).0.log.resent
  {
    hide DequeueN; hide SendBatch; hide Base; hide Batched; hide Whole; hide Sendable;
    var batch := s.queue[..Min(MAX_WRITE_BATCH, |s.queue|)];
    TakesOne(c, batch, s.w.sends);
    var sent := SendBatch(c.linux, c.ifaces, batch, s.w.sends);
    var s1 := Batched(s, sent);
    BatchedResends(s, sent);
    BatchedBase(c, s, sent);
    BaseWhole(c, s, s1);
    DequeueNFramed(c, s1, sent.sent);
    var s2 := DequeueN(c, s1, sent.sent);
    Stays(c, s1, s2);
    FlushLoopFramed(c, MAX_WRITE_BATCH, s2);
    Stays(c, s2, FlushLoop(c, MAX_WRITE_BATCH, s2).0);
  }

  lemma BatchedResends(s: State, r: SendResult)
    requires 0 < r.taken <= |s.queue| && s.log.inFlight > 0
    ensures Batched(s, r).log.resent
  {
  }

  lemma TakesOne(c: Config, batch: seq<Datagram>, sends: seq<SendOutcome>)
    requires batch != [] && sends != [] && sends[0] == Taken
    requires forall i :: 0 <= i < |batch| ==> Sendable(c.ifaces, batch[i])
    ensures SendBatch(c.linux, c.ifaces, batch, sends).taken > 0
  {
    hide Sendable;
    if !c.linux { FallbackSends(c.ifaces, batch, sends[1..], 1); }
  }

  lemma FallbackSends(ifaces: map<string, nat>, batch: seq<Datagram>, sends: seq<SendOutcome>, index: nat)
    requires index <= |batch|
    ensures FallbackSend(ifaces, batch, sends, index).taken >= index
  {
  }

  // ---- when exactly ----

  lemma TamePop(c: Config, s: State)
    requires Tame(s.w.script) && !s.closed && s.queue != []
    ensures var r := Dequeue(c, s);
            && Tame(r.w.script) && !r.closed && s.queue[1..] <= r.queue && r.log.resent == s.log.resent
            && r.log.inFlight == (if s.log.inFlight == 0 then 0 else s.log.inFlight - 1)
  {
    hide Popped; hide Dequeue; hide Tame; hide Polite; hide UpdateWritability;
    DequeueUpdates(c, s);
    PoppedFields(s);
    PoppedFlight(s);
    TameUpdate(c, false, Popped(s));
  }

  lemma {:induction false} TamePops(c: Config, s: State, n: nat)
    requires Tame(s.w.script) && !s.closed && n <= |s.queue| && n == s.log.inFlight
    ensures var r := DequeueN(c, s, n);
            Tame(r.w.script) && !r.closed && r.log.resent == s.log.resent && r.log.inFlight == 0
    decreases n
  {
    hide Dequeue; hide DequeueN; hide Tame;
    if n == 0 { DequeueNone(c, s); } else {
      TamePop(c, s);
      DequeueOne(c, s, n);
      TamePops(c, Dequeue(c, s), n - 1);
    }
  }

  lemma DequeueOne(c: Config, s: State, n: nat)
    requires n > 0
    ensures DequeueN(c, s, n) == DequeueN(c, Dequeue(c, s), n - 1)
  {
  }

  /** Nothing has been sent twice, and handlers to come will see to that. */
  predicate Unrepeated(s: State) { !s.closed && Tame(s.w.script) && !s.log.resent }

  /** A send loop that starts with nothing in flight resends nothing unless handlers flush, read or close. */
  lemma {:induction false} CleanLoop(c: Config, s: State)
    requires Unrepeated(s) && s.log.inFlight == 0
    ensures Unrepeated(FlushLoop(c, MAX_WRITE_BATCH, s).0)
    decreases Work(s)
  {
    hide DequeueN; hide SendBatch; hide Batched; hide Tame;
    if s.queue != [] {
      var r := FirstSend(c, s);
      var s1 := Batched(s, r);
      BatchedFresh(s, r);
      if r.error.None? {
        TamePops(c, s1, r.sent);
        if !r.again && r.sent == Min(MAX_WRITE_BATCH, |s.queue|) { CleanLoop(c, DequeueN(c, s1, r.sent)); }
      }
    }
  }

  lemma BatchedFresh(s: State, r: SendResult)
    requires r.taken <= |s.queue| && s.log.inFlight == 0 && !s.log.resent
    ensures var t := Batched(s, r);
            && !t.log.resent && t.log.inFlight == r.taken && t.queue == s.queue && t.closed == s.closed
            && t.w.script == s.w.script
  {
  }

  /**
   * As long as handlers neither flush, read nor close, a flush sends something again exactly if the head of the
   * queue is still there from an earlier send and the socket takes something of the first batch.
   */
  lemma ResendsExactly(c: Config, s: State)
    requires Whole(c, s) && !s.closed && c.mode != Completion && Tame(s.w.script) && !s.log.resent
    requires s.log.inFlight <= |s.queue|
    ensures Flush(c, s).s.log.resent <==> s.log.inFlight > 0 && FirstSend(c, s).taken > 0
  {
    hide FlushLoop; hide FlushOutbound; hide FirstSend; hide Whole; hide Tame;
    var s0 := StartLoop(s);
    StartSame(c, s);
    if s.log.inFlight == 0 {
      CleanLoop(c, s0);
      AfterCalmLoop(c, s);
    } else if FirstSend(c, s).taken > 0 {
      ResendingLoop(c, s0);
      StartWhole(c, s);
      AfterLoop(c, s);
    } else {
      IdleLoop(c, s0);
      AfterCalmLoop(c, s);
    }
  }

  lemma StartSame(c: Config, s: State)
    ensures var r := StartLoop(s);
            && r.w == s.w && r.queue == s.queue && r.closed == s.closed && r.log.inFlight == s.log.inFlight
            && r.log.resent == s.log.resent && FirstSend(c, r) == FirstSend(c, s) && (Whole(c, s) ==> Whole(c, r))
  {
    hide SendBatch;
  }

  lemma ResendingLoop(c: Config, s: State)
    requires Whole(c, s) && !s.closed && c.mode != Completion && 0 < s.log.inFlight <= |s.queue|
    requires FirstSend(c, s).taken > 0
    ensures FlushLoop(c, MAX_WRITE_BATCH, s).0.log.resent
  {
    hide DequeueN; hide SendBatch; hide Base; hide Batched; hide Whole;
    var sent := FirstSend(c, s);
    var s1 := Batched(s, sent);
    BatchedResends(s, sent);
    if sent.error.None? {
      BatchedBase(c, s, sent);
      BaseWhole(c, s, s1);
      DequeueNFramed(c, s1, sent.sent);
      var s2 := DequeueN(c, s1, sent.sent);
      BaseWhole(c, s1, s2);
      Stays(c, s1, s2);
      FlushLoopFramed(c, MAX_WRITE_BATCH, s2);
      Stays(c, s2, FlushLoop(c, MAX_WRITE_BATCH, s2).0);
    }
  }

  lemma IdleLoop(c: Config, s: State)
    requires Unrepeated(s) && s.queue != [] && FirstSend(c, s).taken == 0
    ensures Unrepeated(FlushLoop(c, MAX_WRITE_BATCH, s).0)
  {
    hide SendBatch; hide Tame;
    DequeueNone(c, Batched(s, FirstSend(c, s)));
  }

  /** Nor do such handlers after the send loop. */
  lemma AfterCalmLoop(c: Config, s: State)
    requires !s.closed && c.mode != Completion
    requires Unrepeated(FlushLoop(c, MAX_WRITE_BATCH, StartLoop(s)).0)
    ensures !Flush(c, s).s.log.resent
  {
    hide FlushLoop; hide Fire; hide EnableWriteInterest; hide DisableWriteInterest; hide EndLoop; hide StartLoop; hide Work;
    hide Tame;
    var s1 := FlushLoop(c, MAX_WRITE_BATCH, StartLoop(s)).0;
    InterestBase(c, s1);
    EndQuiet(s1);
    EndQuiet(EnableWriteInterest(c, s1).s);
    var o := DisableWriteInterest(c, s1);
    EndQuiet(o.s);
    TameFire(c, false, EndLoop(o.s), FlushComplete);
  }

  lemma EndQuiet(s: State)
    ensures EndLoop(s).log.resent == s.log.resent && EndLoop(s).w == s.w && EndLoop(s).closed == s.closed
  {
  }

  /** The socket takes the whole batch. */
  lemma AllTaken(c: Config, batch: seq<Datagram>, sends: seq<SendOutcome>)
    requires |batch| > 1 && TakenPrefix(sends, |batch|) == |batch|
    requires forall i :: 0 <= i < |batch| ==> Sendable(c.ifaces, batch[i])
    ensures SendBatch(c.linux, c.ifaces, batch, sends) == Took(|batch|, sends[|batch|..])
  {
    hide Sendable;
    if !c.linux { FallbackTakes(c.ifaces, batch, sends, 0); }
  }

  lemma {:induction false} FallbackTakes(ifaces: map<string, nat>, batch: seq<Datagram>, sends: seq<SendOutcome>, index: nat)
    requires index <= |batch| && TakenPrefix(sends, |batch| - index) == |batch| - index
    requires forall i :: 0 <= i < |batch| ==> Sendable(ifaces, batch[i])
    ensures FallbackSend(ifaces, batch, sends, index) == Took(|batch|, sends[|batch| - index..])
    decreases |batch| - index
  {
    hide Sendable;
    if index < |batch| { FallbackTakes(ifaces, batch, sends[1..], index + 1); }
  }

  /**
   * The socket takes the first batch of at least two and has room for one datagram more; the first dequeue makes the
   * endpoint writable, and the first thing the handlers do when told is to flush.
   */
  ghost predicate Provoked(c: Config, s: State) {
    var n := Min(MAX_WRITE_BATCH, |s.queue|);
    && Whole(c, s) && !s.closed && c.mode != Completion && c.hasChannel && |s.queue| > 1
    && (forall i :: 0 <= i < |s.queue| ==> Sendable(c.ifaces, s.queue[i]))
    && !s.writable && Size(s.queue[0]) <= s.bytes <= Size(s.queue[0]) + c.low
    && s.w.script != [] && s.w.script[0] == DoFlush
    && TakenPrefix(s.w.sends, n) == n && n < |s.w.sends| && s.w.sends[n] == Taken
  }

  /** Then the flush sends something twice, whatever the handlers do next and whatever else the socket answers. */
  lemma NestedFlushResends(c: Config, s: State)
    requires Provoked(c, s)
    ensures FlushOutbound(c, s).s.log.resent
  {
    hide FlushLoop; hide Base; hide Whole; hide Sendable; hide TakenPrefix; hide FlushOutbound;
    StartWhole(c, s);
    NestedLoop(c, StartLoop(s));
    AfterLoop(c, s);
  }

  lemma NestedLoop(c: Config, s: State)
    requires Provoked(c, s)
    ensures FlushLoop(c, MAX_WRITE_BATCH, s).0.log.resent
  {
    hide DequeueN; hide SendBatch; hide Base; hide Batched; hide Whole; hide Sendable; hide TakenPrefix;
    var n := Min(MAX_WRITE_BATCH, |s.queue|);
    AllTaken(c, s.queue[..n], s.w.sends);
    var sent := Took(n, s.w.sends[n..]);
    var s1 := Batched(s, sent);
    BatchedBase(c, s, sent);
    BaseWhole(c, s, s1);
    NestedDequeue(c, s, n);
    DequeueNFramed(c, s1, n);
    var s2 := DequeueN(c, s1, n);
    Stays(c, s1, s2);
    FlushLoopFramed(c, MAX_WRITE_BATCH, s2);
    Stays(c, s2, FlushLoop(c, MAX_WRITE_BATCH, s2).0);
  }

  lemma NestedDequeue(c: Config, s: State, n: nat)
    requires Provoked(c, s) && n == Min(MAX_WRITE_BATCH, |s.queue|)
    requires Whole(c, Batched(s, Took(n, s.w.sends[n..])))
    ensures DequeueN(c, Batched(s, Took(n, s.w.sends[n..])), n).log.resent
  {
    hide Dequeue; hide Base; hide Whole; hide Sendable; hide Notify; hide RunHandler; hide TakenPrefix; hide Batched;
    var s1 := Batched(s, Took(n, s.w.sends[n..]));
    NestedState(c, s, n);
    var t := Toggle(c, Popped(s1), true);
    HandlerFlushes(c, t);
    var r := Dequeue(c, s1);
    DequeueIs(c, s1);
    WholeSound(c, s1);
    DequeueBase(c, s1);
    BaseWhole(c, s1, r);
    Stays(c, s1, r);
    DequeueNFramed(c, r, n - 1);
    Stays(c, r, DequeueN(c, r, n - 1));
    DequeueOne(c, s1, n);
  }

  lemma WholeSound(c: Config, s: State)
    requires Whole(c, s)
    ensures Sound(s)
  {
  }

  /** The level falls to the low watermark, so the flag rises and the handlers are told. */
  lemma DequeueIs(c: Config, s: State)
    requires !s.closed && s.queue != [] && !s.writable && Popped(s).bytes <= c.low
    ensures Dequeue(c, s) == Notify(c, Toggle(c, Popped(s), true))
  {
    hide Notify; hide ReleaseAll;
  }

  lemma NestedState(c: Config, s: State, n: nat)
    requires Provoked(c, s) && n == Min(MAX_WRITE_BATCH, |s.queue|)
    ensures var s1 := Batched(s, Took(n, s.w.sends[n..]));
            && !s1.closed && !s1.writable && s1.queue != [] && Popped(s1).bytes <= c.low
            && var t := Toggle(c, Popped(s1), true);
               && Whole(c, t) && !t.closed && t.log.inFlight > 0 && t.queue == s.queue[1..]
               && t.w.sends != [] && t.w.sends[0] == Taken && t.w.script == s.w.script
  {
    hide Envelopes; hide Owned; hide Sendable; hide TakenPrefix;
  }

  lemma HandlerFlushes(c: Config, t: State)
    requires Whole(c, t) && !t.closed && c.mode != Completion && c.hasChannel && t.log.inFlight > 0
    requires t.queue != [] && (forall i :: 0 <= i < |t.queue| ==> Sendable(c.ifaces, t.queue[i]))
    requires t.w.sends != [] && t.w.sends[0] == Taken && t.w.script != [] && t.w.script[0] == DoFlush
    ensures Notify(c, t).log.resent
  {
    hide FlushOutbound; hide Sendable; hide Framed; hide Base; hide Whole; hide RunHandler; hide React;
    var t1 := t.(w := t.w.(script := t.w.script[1..]));
    ScriptWhole(c, t, t1.w);
    FlushResends(c, t1);
    var t2 := FlushOutbound(c, t1).s;
    ReactFlush(c, t1);
    WholeSound(c, t1);
    FlushOutboundBase(c, t1);
    Stays(c, t1, t2);
    RunHandlerFramed(c, t2);
    FramedBase(c, t2, RunHandler(c, t2));
    Stays(c, t2, RunHandler(c, t2));
    HandlerStep(c, t);
    NotifyRuns(c, t);
  }

  lemma ScriptWhole(c: Config, s: State, w: World)
    requires Whole(c, s)
    ensures Whole(c, s.(w := w))
  {
  }

  lemma ReactFlush(c: Config, s: State)
    requires !s.closed && c.mode != Completion
    ensures React(c, s, DoFlush) == FlushOutbound(c, s).s
  {
    hide FlushOutbound;
  }

  lemma HandlerStep(c: Config, s: State)
    requires s.w.script != [] && s.w.script[0] != Return
    ensures RunHandler(c, s) == RunHandler(c, React(c, s.(w := s.w.(script := s.w.script[1..])), s.w.script[0]))
  {
    hide React;
  }

  // ---- a send that fails half-way ----

  /**
   * A send error after the first datagram of a batch, which there is off Linux only, leaves what was sent in the
   * queue; if the caller does not close the endpoint and the socket takes something then, the next flush sends it again.
   */
  lemma PartialFailureResends(c: Config, s: State)
    requires Whole(c, s) && !s.closed && c.mode != Completion && s.log.inFlight == 0 && !s.log.resent
    requires FirstSend(c, s).error.Some? && FirstSend(c, s).taken > 0
    ensures var r := FirstSend(c, s);
            var o := Flush(c, s);
            && !c.linux && o.error == r.error && !o.s.closed && o.s.queue == s.queue
            && o.s.log.inFlight == r.taken && o.s.log.sent == s.log.sent + s.queue[..r.taken]
            && o.s.w == s.w.(sends := r.rest)
            && (Tame(s.w.script) ==> (Flush(c, o.s).s.log.resent <==> FirstSend(c, o.s).taken > 0))
  {
    hide FlushOutbound; hide Tame; hide FirstSend;
    FirstFails(c, s);
    if Tame(s.w.script) { ResendsExactly(c, FlushOutbound(c, s).s); }
  }

  lemma FirstFails(c: Config, s: State)
    requires Whole(c, s) && !s.closed && c.mode != Completion && s.log.inFlight == 0 && !s.log.resent
    requires FirstSend(c, s).error.Some? && FirstSend(c, s).taken > 0
    ensures var r := FirstSend(c, s);
            var o := FlushOutbound(c, s);
            && !c.linux && o.error == r.error && Whole(c, o.s) && !o.s.closed && o.s.queue == s.queue
            && o.s.log.inFlight == r.taken && o.s.log.sent == s.log.sent + s.queue[..r.taken]
            && o.s.w == s.w.(sends := r.rest) && !o.s.log.resent
  {
    hide DequeueN; hide SendBatch; hide Sendable;
    var s0 := StartLoop(s);
    var r := FirstSend(c, s);
    assert FlushLoop(c, MAX_WRITE_BATCH, s0) == (Batched(s0, r), SendFailed(r.error.value));
  }

  lemma FallbackFails(c: Config, batch: seq<Datagram>, sends: seq<SendOutcome>)
    requires !c.linux && |batch| == 2 && Sendable(c.ifaces, batch[0]) && Sendable(c.ifaces, batch[1])
    requires sends == [Taken, Refused, Taken]
    ensures SendBatch(c.linux, c.ifaces, batch, sends) == SendResult(1, 1, false, Some(ErrSocket), [Taken])
  {
    hide Sendable;
    assert sends[1..] == [Refused, Taken] && sends[1..][1..] == [Taken];
    assert FallbackSend(c.ifaces, batch, sends[1..], 1) == SendResult(1, 1, false, Some(ErrSocket), [Taken]);
  }

  // ---- a Modify that fails ----

  /**
   * The flag is raised before the poller is asked. When the socket takes nothing and the poller refuses, the flush
   * says so; but while the socket still takes nothing the next flush reports success, although nothing waits for
   * write readiness. No handler runs in between, so it makes no difference what handlers would do.
   */
  lemma RefusedModifyStrands(c: Config, s: State)
    requires !s.closed && c.mode == Readiness && !s.writeInterest && !s.w.mask && NextAnswer(s.w) != Accepted
    requires FirstSend(c, s).again && FirstSend(c, s).taken == 0
    ensures var o := Flush(c, s);
            && o.error == Some(ErrPoller) && o.s.queue == s.queue && o.s.writeInterest && !o.s.w.mask
            && (FirstSend(c, o.s).again && FirstSend(c, o.s).taken == 0 ==>
                  var p := Flush(c, o.s);
                  p.error == None && p.s.queue == s.queue && p.s.writeInterest && !p.s.w.mask)
  {
    hide FlushOutbound; hide FirstSend;
    BlockedFlush(c, s);
    var o := FlushOutbound(c, s);
    if FirstSend(c, o.s).again && FirstSend(c, o.s).taken == 0 { BlockedFlush(c, o.s); }
  }

  /** A flush of which the socket takes nothing. */
  lemma BlockedFlush(c: Config, s: State)
    requires !s.closed && c.mode == Readiness && FirstSend(c, s).again && FirstSend(c, s).taken == 0
    ensures var o := FlushOutbound(c, s);
            && !o.s.closed && o.s.queue == s.queue && o.s.writeInterest
            && (s.writeInterest ==> o.error == None && o.s.w.mask == s.w.mask)
            && (!s.writeInterest && NextAnswer(s.w) != Accepted ==> o.error == Some(ErrPoller) && o.s.w.mask == s.w.mask)
  {
    hide SendBatch; hide DequeueN; hide Sendable;
    var s0 := StartLoop(s);
    var s1 := Batched(s0, FirstSend(c, s));
    NothingOffered(c, s);
    DequeueNone(c, s1);
    assert FlushLoop(c, MAX_WRITE_BATCH, s0) == (s1, Blocked);
  }

  lemma NothingOffered(c: Config, s: State)
    ensures FirstSend(c, s).again ==> s.queue != [] && FirstSend(c, s).error.None?
  {
    hide Sendable;
  }

  // ---- a whole run ----

  const LOCAL := Address(Some([127, 0, 0, 1]), 9, "")

  function Small(linux: bool): Config {
    Config(2, 1, Readiness, linux, true, true, false, 1, 1, NO_ADDRESS, map[], false, false)
  }

  function Outbound(id: nat, data: seq<Byte>): Datagram { Datagram(Buf(id, data), LOCAL, None) }

  /** Two datagrams are queued, of two bytes and of one; then these answers are given. */
  function Setup(script: seq<Reaction>, sends: seq<SendOutcome>): seq<Step> {
    [Call(DoAllocate), Call(DoAllocate),
     Call(DoWrite(DatagramMessage(Some(Buf(0, [1, 1])), LOCAL, None))),
     Call(DoWrite(DatagramMessage(Some(Buf(1, [1])), LOCAL, None))),
     Provide(Loaded(script, sends))]
  }

  function Loaded(script: seq<Reaction>, sends: seq<SendOutcome>): World {
    InitialWorld().(refs := multiset{BufRef(0), BufRef(1)}, nextBuf := 2, script := script, sends := sends)
  }

  lemma WriteQuietly(c: Config, s: State, id: nat, data: seq<Byte>)
    requires s.w.script == [] && !s.closed && BufRef(id) in s.w.held
    ensures Next(c, s, Call(DoWrite(DatagramMessage(Some(Buf(id, data)), LOCAL, None))))
            == Settled(c, Appended(s, Outbound(id, data)))
  {
    hide UpdateWritability; hide Settled; hide Appended;
    var m := DatagramMessage(Some(Buf(id, data)), LOCAL, None);
    var d := Outbound(id, data);
    assert MessageOwned(m) == [BufRef(id)] + [] == [BufRef(id)];
    assert multiset(MessageOwned(m)) == multiset{BufRef(id)};
    assert RequestedDatagram(c, m) == Some(d);
    AppendedQuiet(s, d);
    QuietUpdate(c, Appended(s, d));
    assert Owns(s.w, m);
    assert EndpointSpec.Write(c, s, m).s == Enqueue(c, s, d);
    assert React(c, s, DoWrite(m)) == EndpointSpec.Write(c, s, m).s;
  }

  lemma AppendedQuiet(s: State, d: Datagram)
    ensures Appended(s, d).w.script == s.w.script && Appended(s, d).closed == s.closed
  {
  }

  /** The state after the two buffers have been allocated. */
  function Allocated(): State {
    Initial().(w := InitialWorld().(refs := multiset{BufRef(0), BufRef(1)}, held := multiset{BufRef(0), BufRef(1)}, nextBuf := 2))
  }

  lemma AllocateTwice(c: Config)
    ensures Next(c, Next(c, Initial(), Call(DoAllocate)), Call(DoAllocate)) == Allocated()
  {
  }

  ghost predicate TwoQueued(c: Config, s: State) {
    && Whole(c, s) && !s.closed && s.log.inFlight == 0 && !s.log.resent && s.log.depth == 0
    && s.queue == [Outbound(0, [1, 1]), Outbound(1, [1])] && s.bytes == 3 && !s.writable
    && !s.writeInterest && !s.w.mask && !s.w.drift && s.w.answers == []
  }

  lemma FirstWrite(c: Config)
    requires c.high == 2 && c.low == 1
    ensures var s := Settled(c, Appended(Allocated(), Outbound(0, [1, 1])));
            && Whole(c, s) && !s.closed && s.log.inFlight == 0 && !s.log.resent && s.log.depth == 0
            && s.queue == [Outbound(0, [1, 1])] && s.bytes == 2 && !s.writable && !s.writeInterest
            && s.w == Allocated().w.(held := multiset{BufRef(1)})
  {
    assert multiset(Owned(Outbound(0, [1, 1]))) == multiset{BufRef(0)};
  }

  lemma SecondWrite(c: Config, s: State, script: seq<Reaction>, sends: seq<SendOutcome>)
    requires c.high == 2 && c.low == 1
    requires Whole(c, s) && !s.closed && s.log.inFlight == 0 && !s.log.resent && s.log.depth == 0
    requires s.queue == [Outbound(0, [1, 1])] && s.bytes == 2 && !s.writable && !s.writeInterest
    requires s.w == Allocated().w.(held := multiset{BufRef(1)})
    ensures var t := Settled(c, Appended(s, Outbound(1, [1])));
            var w := Loaded(script, sends);
            SameHoldings(w, t.w) && TwoQueued(c, t.(w := w))
  {
    assert multiset(Owned(Outbound(1, [1]))) == multiset{BufRef(1)};
  }

  /** What `Setup` does. */
  lemma SetupRuns(c: Config, script: seq<Reaction>, sends: seq<SendOutcome>, rest: seq<Step>) returns (s: State)
    requires c.high == 2 && c.low == 1
    ensures TwoQueued(c, s) && s.w.script == script && s.w.sends == sends
    ensures Run(c, Initial(), Setup(script, sends) + rest) == Run(c, s, rest)
  {
    hide Next; hide Settled; hide Appended; hide SameHoldings; hide Whole;
    var steps := Setup(script, sends) + rest;
    AllocateTwice(c);
    FirstWrite(c);
    WriteQuietly(c, Allocated(), 0, [1, 1]);
    var s1 := Settled(c, Appended(Allocated(), Outbound(0, [1, 1])));
    WriteQuietly(c, s1, 1, [1]);
    SecondWrite(c, s1, script, sends);
    var t := Settled(c, Appended(s1, Outbound(1, [1])));
    s := t.(w := Loaded(script, sends));
    assert Next(c, t, Provide(Loaded(script, sends))) == s by { Provided(c, t, Loaded(script, sends)); }
    FiveSteps(c, steps);
    assert steps[5..] == rest;
  }

  lemma Provided(c: Config, s: State, w: World)
    requires SameHoldings(w, s.w)
    ensures Next(c, s, Provide(w)) == s.(w := w)
  {
  }

  lemma FiveSteps(c: Config, steps: seq<Step>)
    requires |steps| >= 5
    ensures var s2 := Next(c, Next(c, Initial(), steps[0]), steps[1]);
            var s4 := Next(c, Next(c, s2, steps[2]), steps[3]);
            Run(c, Initial(), steps) == Run(c, Next(c, s4, steps[4]), steps[5..])
  {
    hide Next;
    RunFirst(c, Initial(), steps);
    var s1 := Next(c, Initial(), steps[0]);
    RunFirst(c, s1, steps[1..]);
    var s2 := Next(c, s1, steps[1]);
    RunFirst(c, s2, steps[2..]);
    var s3 := Next(c, s2, steps[2]);
    RunFirst(c, s3, steps[3..]);
    RunFirst(c, Next(c, s3, steps[3]), steps[4..]);
  }

  /** From a new endpoint: two writes, and a flush whose handler flushes on the writability notification. */
  lemma NestedFlushRun()
    ensures var s := Run(Small(true), Initial(), Setup([DoFlush], [Taken, Taken, Taken]) + [Call(DoFlush)]);
            s.log.resent && !Increasing(s.log.sentAt)
  {
    hide FlushOutbound; hide Run; hide Whole;
    var c := Small(true);
    var steps := Setup([DoFlush], [Taken, Taken, Taken]) + [Call(DoFlush)];
    var s := SetupRuns(c, [DoFlush], [Taken, Taken, Taken], [Call(DoFlush)]);
    LocalSendable(c);
    assert TakenPrefix(s.w.sends[1..], 1) == 1;
    NestedFlushResends(c, s);
    RunFirst(c, s, [Call(DoFlush)]);
    ReactFlush(c, s);
    assert Next(c, s, Call(DoFlush)) == FlushOutbound(c, s).s;
    assert [Call(DoFlush)][1..] == [];
    RunNothing(c, FlushOutbound(c, s).s);
    ExactlyOnce(c, steps);
  }

  lemma LocalSendable(c: Config)
    ensures forall id, data :: Sendable(c.ifaces, Outbound(id, data))
  {
  }

  // ---- a handler that closes ----

  /** Closing sends nothing. */
  lemma QuietClose(c: Config, s: State)
    requires s.w.script == [] && !s.closed
    ensures var r := Close(c, s).s; r.closed && r.queue == [] && r.log.sent == s.log.sent && r.w.script == []
  {
    hide Notify; hide ReleaseOutbound; hide RunHandler;
    var s0 := s.(closed := true);
    QuietNotify(c, Toggle(c, s0, false));
    var s1 := CloseWritability(c, s0);
    ReleaseSendsNothing(c, s1);
    var s2 := CloseResources(c, ReleaseOutbound(c, s1));
    var s3 := s2.(inactiveFired := true);
    QuietHandlers(c, Emit(s3, Inactive));
    assert Fire(c, s3, Inactive) == if c.hasChannel then Emit(s3, Inactive) else s3;
    assert Close(c, s).s == FireInactiveOnce(c, s2);
  }

  lemma {:induction false} ReleaseSendsNothing(c: Config, s: State)
    requires s.closed && !s.writable
    ensures var r := ReleaseOutbound(c, s);
            && r.closed && r.queue == [] && r.log.sent == s.log.sent && r.w.script == s.w.script
    decreases |s.queue|
  {
    hide Popped; hide UpdateWritability;
    if s.queue != [] {
      PoppedFields(s);
      PoppedFlag(s);
      UpdateClosed(c, Popped(s));
      ReleaseSendsNothing(c, Popped(s));
    }
  }

  lemma PoppedFlag(s: State)
    requires s.queue != []
    ensures Popped(s).writable == s.writable
  {
  }

  /** The first dequeue raises the flag, and the handler that is told closes the endpoint. */
  lemma ClosingDequeue(c: Config, s: State, k: nat, rest: seq<SendOutcome>)
    requires TwoQueued(c, s) && s.w.script == [DoClose] && c.hasChannel && c.low == 1 && 1 <= k <= 2
    ensures var r := Dequeue(c, Batched(s, Took(k, rest)));
            r.closed && r.queue == [] && r.log.sent == s.log.sent + s.queue[..k]
  {
    hide Close; hide Dequeue; hide Notify; hide RunHandler; hide Whole; hide Popped;
    var s1 := Batched(s, Took(k, rest));
    PoppedFields(s1);
    PoppedTwo(s1);
    DequeueIs(c, s1);
    var t := Toggle(c, Popped(s1), true);
    HandlerStep(c, t);
    var u := t.(w := t.w.(script := t.w.script[1..]));
    QuietClose(c, u);
    QuietHandlers(c, Close(c, u).s);
    NotifyRuns(c, t);
  }

  lemma PoppedTwo(s: State)
    requires s.queue == [Outbound(0, [1, 1]), Outbound(1, [1])] && s.bytes == 3
    ensures Popped(s).bytes == 1
  {
  }

  lemma NotifyRuns(c: Config, s: State)
    requires c.hasChannel
    ensures Notify(c, s) == RunHandler(c, s)
  {
  }

  /** A round that sends `k` datagrams and in whose first dequeue a handler closes the endpoint is the last. */
  lemma ClosingRound(c: Config, size: nat, s: State, k: nat)
    requires TwoQueued(c, s) && s.w.script == [DoClose] && s.w.sends == [Taken, Taken] && c.hasChannel && c.low == 1
    requires 1 <= k == Min(size, 2)
    ensures FlushLoop(c, size, s).0.log.sent == s.log.sent + s.queue[..k]
  {
    hide Dequeue; hide DequeueN; hide SendBatch; hide Sendable; hide Batched; hide Whole;
    var batch := s.queue[..k];
    LocalSendable(c);
    SendBatchIs(c.linux, c.ifaces, batch, s.w.sends);
    assert TakenPrefix(s.w.sends[1..], 1) == 1;
    var r := SendBatch(c.linux, c.ifaces, batch, s.w.sends);
    assert r == Took(k, s.w.sends[k..]);
    var s1 := Batched(s, r);
    ClosingDequeue(c, s, k, s.w.sends[k..]);
    DequeueOne(c, s1, k);
    assert DequeueN(c, s1, k) == Dequeue(c, s1);
  }

  /**
   * From a new endpoint: after two writes, with a handler that closes when the first dequeue makes the endpoint
   * writable again, a batch sends both datagrams, and sending one at a time only the first.
   */
  lemma ClosingHandlerRun(linux: bool)
    ensures var c := Small(linux);
            var s := Run(c, Initial(), Setup([DoClose], [Taken, Taken]));
            && |s.queue| == 2
            && FlushLoop(c, MAX_WRITE_BATCH, s).0.log.sent == s.log.sent + s.queue
            && FlushLoop(c, 1, s).0.log.sent == s.log.sent + s.queue[..1]
            && FlushLoop(c, MAX_WRITE_BATCH, s) != FlushLoop(c, 1, s)
  {
    hide FlushLoop; hide Run; hide Whole;
    var c := Small(linux);
    var s := SetupRuns(c, [DoClose], [Taken, Taken], []);
    RunNothing(c, s);
    assert Setup([DoClose], [Taken, Taken]) + [] == Setup([DoClose], [Taken, Taken]);
    ClosingRound(c, MAX_WRITE_BATCH, s, 2);
    ClosingRound(c, 1, s, 1);
    assert s.queue[..2] == s.queue;
  }

  /** Off Linux: two writes, a flush that fails half-way, and another flush. */
  lemma PartialFailureRun()
    ensures var s := Run(Small(false), Initial(), Setup([], [Taken, Refused, Taken]) + [Call(DoFlush), Call(DoFlush)]);
            s.log.resent && !Increasing(s.log.sentAt)
  {
    hide FlushOutbound; hide Run; hide Whole;
    var c := Small(false);
    var steps := Setup([], [Taken, Refused, Taken]) + [Call(DoFlush), Call(DoFlush)];
    var s := SetupRuns(c, [], [Taken, Refused, Taken], [Call(DoFlush), Call(DoFlush)]);
    LocalSendable(c);
    assert s.queue[..2] == s.queue;
    FallbackFails(c, s.queue, s.w.sends);
    PartialFailureResends(c, s);
    var t := FlushOutbound(c, s).s;
    TakesOne(c, t.queue[..2], t.w.sends);
    RunFirst(c, s, [Call(DoFlush), Call(DoFlush)]);
    RunFirst(c, t, [Call(DoFlush)]);
    RunNothing(c, FlushOutbound(c, t).s);
    ReactFlush(c, s);
    ReactFlush(c, t);
    ExactlyOnce(c, steps);
  }

  // ---- a failed write that is submitted again ----

  function Completing(): Config { Small(true).(mode := Completion) }

  const LOCAL_SOCKET := SocketAddress(IPv4, [127, 0, 0, 1, 0, 0, 0, 0, 0, 0, 0, 0, 0, 0, 0, 0], 9, 0)

  /** One datagram is queued and submitted; then its write fails, and the handler that is told flushes. */
  function FailingWrite(): seq<Step> {
    [Call(DoAllocate), Call(DoAllocate),
     Call(DoWrite(DatagramMessage(Some(Buf(0, [1, 1])), LOCAL, None))), Call(DoFlush),
     Provide(Offered()), Report(WriteDone(Some(ErrSocket)))]
  }

  function Offered(): World {
    InitialWorld().(refs := multiset{BufRef(0), BufRef(0), BufRef(1)}, held := multiset{BufRef(1)}, nextBuf := 2,
                    pendingWrites := [WriteRequest(Buf(0, [1, 1]), LOCAL_SOCKET)], script := [DoFlush])
  }

  lemma LocalSocket(c: Config)
    ensures ToSocketAddress(c.ifaces, LOCAL) == Success(LOCAL_SOCKET)
  {
    assert [127, 0, 0, 1] + Zeros(12) == LOCAL_SOCKET.ip;
  }

  lemma SubmitFirst(c: Config, s: State)
    requires c.mode == Completion && !s.closed && !s.writePending && s.queue == [Outbound(0, [1, 1])]
    requires s.w == Allocated().w.(held := multiset{BufRef(1)})
    ensures var r := Next(c, s, Call(DoFlush));
            && r == WriteSubmitted(s, LOCAL_SOCKET) && SameHoldings(Offered(), r.w)
  {
    hide ToSocketAddress; hide FlushOutbound; hide SameHoldings; hide WriteSubmitted;
    LocalSocket(c);
    OfferedHoldings(s);
    assert s.w.answers == [];
    assert SkipAnswer(s.w) == s.w && s.(w := s.w) == s;
    assert React(c, s, DoFlush) == Flush(c, s).s;
  }

  lemma OfferedHoldings(s: State)
    requires s.queue == [Outbound(0, [1, 1])] && s.w == Allocated().w.(held := multiset{BufRef(1)})
    ensures SameHoldings(Offered(), WriteSubmitted(s, LOCAL_SOCKET).w)
  {
  }

  /** The poller is given the same datagram twice. */
  lemma FailingWriteRun()
    ensures var s := Run(Completing(), Initial(), FailingWrite());
            s.closed && Repeats(s.log.sentAt) && !Increasing(s.log.sentAt)
  {
    hide Next; hide Run; hide Settled; hide Appended; hide HandlerSubmits; hide SameHoldings; hide WriteSubmitted;
    var c, steps := Completing(), FailingWrite();
    AllocateTwice(c);
    FirstWrite(c);
    WriteQuietly(c, Allocated(), 0, [1, 1]);
    var s1 := Settled(c, Appended(Allocated(), Outbound(0, [1, 1])));
    FirstIdle(c);
    SubmitFirst(c, s1);
    var s2 := WriteSubmitted(s1, LOCAL_SOCKET);
    Provided(c, s2, Offered());
    var s3 := s2.(w := Offered());
    assert steps[..5] == [steps[0], steps[1], steps[2], steps[3], steps[4]];
    FiveSteps(c, steps[..5]);
    assert steps[..5][5..] == [];
    RunNothing(c, s3);
    assert Until(c, steps, 5) == s3;
    SubmitsAgain(c, s1);
    assert Reflushed(c, s3, steps[5]);
    CompletionDelivery(c, steps);
    ExactlyOnce(c, steps);
    RepeatsExactly(Run(c, Initial(), steps).log.sentAt);
  }

  lemma FirstIdle(c: Config)
    ensures !Settled(c, Appended(Allocated(), Outbound(0, [1, 1]))).writePending
  {
  }

  lemma SubmitsAgain(c: Config, s1: State)
    requires c == Completing() && !s1.closed && s1.queue == [Outbound(0, [1, 1])]
    ensures Reflushed(c, WriteSubmitted(s1, LOCAL_SOCKET).(w := Offered()), Report(WriteDone(Some(ErrSocket))))
  {
    hide ToSocketAddress;
    LocalSocket(c);
    var s := WriteSubmitted(s1, LOCAL_SOCKET).(w := Offered());
    var t := Emit(LoseRef(WriteReturned(s), 0), Exception(ErrSocket));
    var u := t.(w := t.w.(script := t.w.script[1..]));
    assert t.w.script == [DoFlush];
    assert Offers(c, u);
    assert ActionSubmits(c, u, DoFlush);
    assert HandlerSubmits(c, t);
  }
}
