/**
 * What an operation leaves alone, however often handlers call back into the endpoint while it runs.
 */
module Frames {
  import opened Wrappers
  import opened Addresses
  import opened World
  import opened EndpointState
  import opened EndpointSpec
  import opened Receiving

  /** Nothing of Close has been done yet. */
  predicate Unclosed(s: State) { s.log.fdCloses == 0 && s.log.allocatorCloses == 0 && !s.inactiveFired }

  predicate Sound(s: State) { !s.closed ==> Unclosed(s) }

  /** The state Close leaves behind. */
  predicate Shut(c: Config, s: State) {
    && s.closed && s.queue == [] && s.spare == 0 && !s.writable && s.inactiveFired
    && s.log.fdCloses == 1 && s.log.allocatorCloses == (if c.hasAllocator then 1 else 0)
  }

  /** On a closed endpoint a handler can change nothing but who holds what. */
  predicate Inert(s: State, r: State) {
    && r.closed && r.queue == s.queue && r.spare == s.spare && r.bytes == s.bytes && r.writable == s.writable
    && r.inactiveFired == s.inactiveFired && r.writePending == s.writePending && r.readPending == s.readPending
    && r.log == s.log && r.w.pendingWrites == s.w.pendingWrites && r.w.pendingReads == s.w.pendingReads
    && r.w.arrivals == s.w.arrivals && r.w.grants == s.w.grants && r.w.inHand == s.w.inHand
  }

  /** What only receiving changes. */
  predicate Steady(s: State, r: State) {
    r.w.arrivals == s.w.arrivals && r.w.grants == s.w.grants && r.log.dispatched == s.log.dispatched
  }

  predicate Monotone(s: State, r: State) {
    && (s.log.resent ==> r.log.resent) && (s.log.nested ==> r.log.nested) && (s.log.partial ==> r.log.partial)
    && r.log.depth == s.log.depth && r.log.reading == s.log.reading && r.w.inHand == s.w.inHand
  }

  /** Of a completion endpoint: what has been submitted from the queue is still outstanding. */
  predicate Idle(s: State) { s.closed || s.log.inFlight == 0 || s.writePending }

  /** Holds between the start and the end of any part of an operation. */
  predicate Base(c: Config, s: State, r: State) {
    && Monotone(s, r)
    && (s.closed ==> r.closed)
    && (Shut(c, s) ==> Shut(c, r))
    && (!s.closed && Unclosed(s) ==> if r.closed then Shut(c, r) else Unclosed(r))
    && (s.log.reading && c.mode != Completion ==> Steady(s, r))
    && (c.mode == Completion ==> r.log.dispatched == s.log.dispatched)
    && (c.mode == Completion && Idle(s) ==> Idle(r) && r.log.resent == s.log.resent)
  }

  /** Holds between the start and the end of anything a handler may call. */
  predicate Framed(c: Config, s: State, r: State) {
    && Base(c, s, r)
    && (s.closed ==> Inert(s, r))
    && (c.mode != Completion && s.log.inFlight > 0 && !r.closed && !r.log.resent ==> r.log.inFlight == s.log.inFlight)
    && (c.mode != Completion && s.log.depth > 0 && !r.closed && !r.log.nested ==>
          s.queue <= r.queue && r.log.inFlight == s.log.inFlight && r.log.partial == s.log.partial)
  }

  lemma FramedTrans(c: Config, s: State, t: State, r: State)
    requires Framed(c, s, t) && Framed(c, t, r)
    ensures Framed(c, s, r)
    ensures Sound(s) ==> Sound(t) && Sound(r)
  {
  }

  lemma BaseTrans(c: Config, s: State, t: State, r: State)
    requires Base(c, s, t) && Base(c, t, r)
    ensures Base(c, s, r)
  {
  }

  // ---- atoms ----

  lemma AppendedFramed(c: Config, s: State, d: Datagram)
    requires !s.closed
    ensures Framed(c, s, Appended(s, d))
  {
  }

  lemma ToggleFramed(c: Config, s: State, on: bool)
    requires !s.closed
    ensures Framed(c, s, Toggle(c, s, on))
  {
  }

  lemma SettledFramed(c: Config, s: State)
    requires !s.closed
    ensures Framed(c, s, Settled(c, s))
  {
    hide Framed; hide Toggle;
    if s.writable && s.bytes >= c.high { ToggleFramed(c, s, false); }
    else if !s.writable && s.bytes <= c.low { ToggleFramed(c, s, true); }
    else { OuterFramed(c, s, s); }
  }

  /** A change of holdings, the script or the event list, with the same references in hand. */
  predicate Outer(s: State, t: State) {
    && (s.closed ==> t.w.grants == s.w.grants)
    && t.closed == s.closed && t.queue == s.queue && t.spare == s.spare && t.bytes == s.bytes
    && t.writable == s.writable && t.inactiveFired == s.inactiveFired
    && t.writePending == s.writePending && t.readPending == s.readPending
    && (t.log == s.log || (!s.closed && t.log == s.log.(events := t.log.events)))
    && t.w.inHand == s.w.inHand && t.w.arrivals == s.w.arrivals
    && t.w.pendingWrites == s.w.pendingWrites && t.w.pendingReads == s.w.pendingReads
  }

  lemma OuterFramed(c: Config, s: State, t: State)
    requires Outer(s, t) && (c.mode != Completion ==> t.w.grants == s.w.grants)
    ensures Framed(c, s, t)
  {
  }

  /** At most one change of the flag, and the handlers that are told of it. */
  lemma UpdateIs(c: Config, s: State)
    requires !s.closed
    ensures var t := Settled(c, s);
            UpdateWritability(c, s) == if t.writable != s.writable && c.hasChannel then RunHandler(c, t) else t
  {
    hide RunHandler;
  }

  lemma SettledFields(c: Config, s: State)
    ensures var r := Settled(c, s);
            && r.writePending == s.writePending && r.inactiveFired == s.inactiveFired
            && r.log.fdCloses == s.log.fdCloses && r.log.allocatorCloses == s.log.allocatorCloses
  {
  }

  lemma AppendedFields(s: State, d: Datagram)
    ensures var r := Appended(s, d);
            && r.writePending == s.writePending && r.closed == s.closed && r.writable == s.writable
            && r.inactiveFired == s.inactiveFired && |r.queue| == |s.queue| + 1 && r.w.script == s.w.script
            && r.log.fdCloses == s.log.fdCloses && r.log.allocatorCloses == s.log.allocatorCloses
            && r.log.inFlight == s.log.inFlight && r.log.resent == s.log.resent
  {
  }

  // ---- operations ----

  lemma {:induction false} RunHandlerFramed(c: Config, s: State)
    requires Sound(s)
    ensures Framed(c, s, RunHandler(c, s))
    decreases Work(s), |s.w.script|, 0
  {
    hide React; hide Framed;
    if s.w.script != [] {
      var s1 := s.(w := s.w.(script := s.w.script[1..]));
      OuterFramed(c, s, s1);
      if s.w.script[0] != Return {
        var s2 := React(c, s1, s.w.script[0]);
        ReactFramed(c, s1, s.w.script[0]);
        FramedTrans(c, s, s1, s2);
        RunHandlerFramed(c, s2);
        FramedTrans(c, s, s2, RunHandler(c, s2));
      }
    } else {
      OuterFramed(c, s, s);
    }
  }

  lemma {:induction false} ReactFramed(c: Config, s: State, action: Reaction)
    requires Sound(s)
    ensures Framed(c, s, React(c, s, action))
    decreases Work(s) + 1, |s.w.script|, 12
  {
    hide Write; hide Flush; hide Read; hide Close; hide Framed; hide Handle; hide Owns;
    match action
    case DoWrite(m) => OuterFramed(c, s, s); WriteFramed(c, s, m);
    case DoFlush => FlushFramed(c, s);
    case DoRead =>
      if s.log.reading && c.mode != Completion { OuterFramed(c, s, s); } else { ReadFramed(c, s); }
    case DoClose => CloseFramed(c, s);
    case _ => OuterFramed(c, s, s.(w := Handle(s.w, action)));
  }

  lemma {:induction false} FireFramed(c: Config, s: State, e: Event)
    requires Sound(s)
    ensures Base(c, s, Fire(c, s, e))
    ensures !s.closed ==> Framed(c, s, Fire(c, s, e))
    ensures s.closed && c.hasChannel ==> Inert(Emit(s, e), Fire(c, s, e))
    ensures !c.hasChannel ==> Fire(c, s, e) == s
    decreases Work(s), |s.w.script|, 1
  {
    hide RunHandler;
    var s1 := if c.hasChannel then Emit(s, e) else s;
    if c.hasChannel { RunHandlerFramed(c, s1); }
    assert Base(c, s, s1);
    BaseTrans(c, s, s1, Fire(c, s, e));
    if !s.closed {
      assert Framed(c, s, s1);
      FramedTrans(c, s, s1, Fire(c, s, e));
    }
  }

  lemma {:induction false} NotifyFramed(c: Config, s: State)
    requires Sound(s)
    ensures Framed(c, s, Notify(c, s))
    decreases Work(s), |s.w.script|, 1
  {
    hide RunHandler; hide Framed;
    if c.hasChannel { RunHandlerFramed(c, s); } else { OuterFramed(c, s, s); }
  }

  lemma {:induction false} CloseWritabilityFramed(c: Config, s: State)
    requires s.closed
    ensures Framed(c, if s.writable then Toggle(c, s, false) else s, CloseWritability(c, s))
    decreases Work(s), |s.w.script|, 2
  {
    hide Notify; hide Framed;
    if s.writable { NotifyFramed(c, Toggle(c, s, false)); } else { OuterFramed(c, s, s); }
  }

  lemma {:induction false} UpdateWritabilityFramed(c: Config, s: State)
    requires Sound(s)
    ensures Framed(c, Settled(c, s), UpdateWritability(c, s))
    decreases Work(s), |s.w.script|, 3
  {
    hide Notify; hide CloseWritability; hide Framed;
    if s.closed { CloseWritabilityFramed(c, s); }
    else if s.writable && s.bytes >= c.high { NotifyFramed(c, Toggle(c, s, false)); }
    else if !s.writable && s.bytes <= c.low { NotifyFramed(c, Toggle(c, s, true)); }
    else { OuterFramed(c, s, s); }
  }

  lemma {:induction false} EnqueueFramed(c: Config, s: State, d: Datagram)
    requires Sound(s)
    requires !s.closed
    ensures Framed(c, s, Enqueue(c, s, d))
    decreases Work(s) + 1, |s.w.script|, 4
  {
    hide UpdateWritability; hide Framed;
    var s1 := Appended(s, d);
    AppendedFramed(c, s, d);
    SettledFramed(c, s1);
    UpdateWritabilityFramed(c, s1);
    FramedTrans(c, s, s1, Settled(c, s1));
    FramedTrans(c, s, Settled(c, s1), UpdateWritability(c, s1));
  }

  lemma {:induction false} DequeueFramed(c: Config, s: State)
    requires Sound(s)
    requires s.queue != []
    ensures Framed(c, Settled(c, Popped(s)), Dequeue(c, s))
    decreases Work(s), |s.w.script|, 4, 0
  {
    hide UpdateWritability; hide Framed;
    UpdateWritabilityFramed(c, Popped(s));
  }

  lemma {:induction false} WriteFramed(c: Config, s: State, m: Message)
    requires Sound(s)
    ensures Framed(c, s, Write(c, s, m).s)
    decreases Work(s) + 1, |s.w.script|, 5
  {
    hide Enqueue; hide Framed;
    match RequestedDatagram(c, m)
    case None => OuterFramed(c, s, Write(c, s, m).s);
    case Some(d) =>
      if s.closed { OuterFramed(c, s, Write(c, s, m).s); } else { EnqueueFramed(c, s, d); }
  }

  lemma {:induction false} FlushFramed(c: Config, s: State)
    requires Sound(s)
    ensures Framed(c, s, Flush(c, s).s)
    decreases Work(s), |s.w.script|, 8
  {
    hide FlushOutbound;
    if !s.closed {
      if c.mode == Completion { SubmitWriteFramed(c, s); } else { FlushOutboundFramed(c, s); }
    }
  }

  lemma WriteSubmittedFramed(c: Config, s: State, to: SocketAddress)
    requires c.mode == Completion && !s.closed && s.queue != [] && !s.writePending
    ensures Framed(c, s, WriteSubmitted(s, to))
  {
  }

  lemma SubmitWriteFramed(c: Config, s: State)
    requires c.mode == Completion
    ensures Framed(c, s, SubmitWrite(c, s).s)
  {
    hide ToSocketAddress; hide Framed;
    OuterFramed(c, s, s);
    if !s.closed && !s.writePending && s.queue != [] && ToSocketAddress(c.ifaces, s.queue[0].addr).Success? {
      var s1 := s.(w := SkipAnswer(s.w));
      OuterFramed(c, s, s1);
      WriteSubmittedFramed(c, s1, ToSocketAddress(c.ifaces, s.queue[0].addr).value);
      FramedTrans(c, s, s1, WriteSubmitted(s1, ToSocketAddress(c.ifaces, s.queue[0].addr).value));
    }
  }

  lemma OfferReadFields(s: State, id: nat)
    ensures var r := OfferRead(s, id).s;
            && r.closed == s.closed && r.queue == s.queue && r.inactiveFired == s.inactiveFired && r.log == s.log
            && r.writePending == s.writePending
            && r.w.arrivals == s.w.arrivals && r.w.inHand == s.w.inHand - multiset{BufRef(id)}
  {
    hide SkipAnswer; hide LoseRef; hide ReadSubmitted; hide NextAnswer;
    SkipAnswerFields(s.w);
    var s1 := s.(w := SkipAnswer(s.w));
    ReadSubmittedFields(s1, id);
    LoseRefFields(s1, id);
    LoseRefFields(ReadSubmitted(s1, id), id);
  }

  lemma ReadSubmittedFields(s: State, id: nat)
    ensures var r := ReadSubmitted(s, id);
            && r.closed == s.closed && r.queue == s.queue && r.inactiveFired == s.inactiveFired && r.log == s.log
            && r.writePending == s.writePending
            && r.w.arrivals == s.w.arrivals && r.w.inHand == s.w.inHand
  {
  }

  lemma LoseRefFields(s: State, id: nat)
    ensures var r := LoseRef(s, id);
            && r.closed == s.closed && r.queue == s.queue && r.inactiveFired == s.inactiveFired && r.log == s.log
            && r.writePending == s.writePending
            && r.w.arrivals == s.w.arrivals && r.w.inHand == s.w.inHand - multiset{BufRef(id)}
  {
  }

  lemma SkipAnswerFields(w: World)
    ensures SkipAnswer(w) == w.(answers := SkipAnswer(w).answers)
  {
  }

  /** The acquired buffer stays in hand only until the poller has answered. */
  lemma OfferReadFramed(c: Config, s: State, w: World, id: nat)
    requires !s.closed && c.mode == Completion
    requires w.inHand == s.w.inHand + multiset{BufRef(id)} && w.arrivals == s.w.arrivals
    ensures Framed(c, s, OfferRead(s.(w := w), id).s)
  {
    hide OfferRead;
    OfferReadFields(s.(w := w), id);
    assert OfferRead(s.(w := w), id).s.w.inHand == s.w.inHand;
  }

  lemma SubmitReadFramed(c: Config, s: State)
    requires !s.closed && c.mode == Completion
    ensures Framed(c, s, SubmitRead(c, s).s)
  {
    hide Framed; hide OfferRead; hide AcquireBuf;
    OuterFramed(c, s, s);
    if !s.readPending && c.hasAllocator {
      var got := AcquireBuf(s.w);
      AcquireHand(s.w);
      var s1 := s.(w := got.0);
      if got.1.None? { OuterFramed(c, s, s1); } else { OfferReadFramed(c, s, got.0, got.1.value); }
    }
  }

  lemma {:induction false} ReadFramed(c: Config, s: State)
    requires Sound(s)
    requires c.mode == Completion || !s.log.reading
    ensures Framed(c, s, Read(c, s).s)
    decreases Work(s), |s.w.script|, 11
  {
    hide ReadReady;
    if !s.closed {
      if c.mode == Completion { SubmitReadFramed(c, s); } else { ReadReadyFramed(c, s); }
    }
  }

  /** Close releases the queue without running a handler: the flag is already down. */
  lemma {:induction false} ReleaseOutboundFrame(c: Config, s: State)
    requires s.closed && !s.writable
    ensures var r := ReleaseOutbound(c, s);
            && r.closed && !r.writable && r.queue == [] && r.spare == 0
            && r.inactiveFired == s.inactiveFired
            && r.log.fdCloses == s.log.fdCloses && r.log.allocatorCloses == s.log.allocatorCloses
            && Monotone(s, r) && Steady(s, r)
            && r.w.script == s.w.script && r.log.resent == s.log.resent
    decreases |s.queue|
  {
    hide UpdateWritability;
    if s.queue != [] {
      var s1 := Popped(s);
      assert UpdateWritability(c, s1) == s1 by { UpdateClosed(c, s1); }
      ReleaseOutboundFrame(c, s1);
    }
  }

  lemma UpdateClosed(c: Config, s: State)
    requires s.closed && !s.writable
    ensures UpdateWritability(c, s) == s
  {
  }

  lemma {:induction false} FireInactiveFramed(c: Config, s: State)
    requires s.closed && !s.inactiveFired
    ensures var r := FireInactiveOnce(c, s);
            Inert(MarkedInactive(c, s), r)
    decreases Work(s), |s.w.script|, 2
  {
    hide Fire;
    FireFramed(c, s.(inactiveFired := true), Inactive);
  }

  /** The three parts of Close: up to the first callback, from there to the last, and the last. */
  lemma {:induction false} CloseFramed(c: Config, s: State)
    requires Sound(s)
    ensures Framed(c, s, Close(c, s).s)
    ensures Close(c, s).s.closed
    ensures !s.closed && Unclosed(s) ==> Shut(c, Close(c, s).s)
    ensures c.mode == Completion ==> Close(c, s).s.log.resent == s.log.resent
    decreases Work(s), |s.w.script|, 7
  {
    hide CloseWritability; hide ReleaseOutbound; hide FireInactiveOnce;
    if !s.closed {
      var s1 := CloseWritability(c, s.(closed := true));
      CloseWritabilityFramed(c, s.(closed := true));
      assert s1.closed && !s1.writable && Monotone(s, s1) && Steady(s, s1);
      assert Unclosed(s) ==> Unclosed(s1);
      CloseTail(c, s, s1);
    }
  }

  lemma {:induction false} CloseTail(c: Config, s: State, s1: State)
    requires s1.closed && !s1.writable && !s.closed
    requires Monotone(s, s1) && Steady(s, s1) && (Unclosed(s) ==> Unclosed(s1))
    requires c.mode == Completion ==> s1.log.resent == s.log.resent
    requires |s1.w.script| <= |s.w.script| && Work(s1) <= Work(s)
    ensures var r := FireInactiveOnce(c, CloseResources(c, ReleaseOutbound(c, s1)));
            && Framed(c, s, r) && r.closed && (Unclosed(s) ==> Shut(c, r))
            && (c.mode == Completion ==> r.log.resent == s.log.resent)
    decreases Work(s), |s.w.script|, 6
  {
    hide ReleaseOutbound; hide Fire;
    ReleaseOutboundFrame(c, s1);
    var s2 := CloseResources(c, ReleaseOutbound(c, s1));
    if !s2.inactiveFired { FireInactiveFramed(c, s2); }
  }

  // ---- the send loop ----

  /** Open and never closed, or closed completely. */
  predicate Whole(c: Config, s: State) { if s.closed then Shut(c, s) else Unclosed(s) }

  lemma BaseWhole(c: Config, s: State, r: State)
    requires Base(c, s, r) && Whole(c, s)
    ensures Whole(c, r)
  {
  }

  lemma PoppedBase(c: Config, s: State)
    requires !s.closed && s.queue != []
    ensures Base(c, s, Popped(s)) && (Sound(s) ==> Sound(Popped(s)))
    ensures Popped(s).queue == s.queue[1..] && Popped(s).log.partial == s.log.partial
    ensures Popped(s).log.inFlight == if s.log.inFlight == 0 then 0 else s.log.inFlight - 1
  {
  }

  lemma BatchedBase(c: Config, s: State, r: SendResult)
    requires !s.closed && c.mode != Completion && r.taken <= |s.queue|
    ensures Base(c, s, Batched(s, r))
  {
  }

  lemma ReflexiveBase(c: Config, s: State)
    ensures Base(c, s, s)
  {
  }

  lemma {:induction false} DequeueBase(c: Config, s: State)
    requires Sound(s) && (s.closed ==> s.queue == [])
    ensures Base(c, s, Dequeue(c, s))
    decreases Work(s), |s.w.script|, 4, 1
  {
    hide Dequeue; hide Base; hide Settled; hide Framed; hide Sound;
    if s.queue != [] {
      var s1 := Popped(s);
      PoppedBase(c, s);
      SettledFramed(c, s1);
      DequeueFramed(c, s);
      FramedBase(c, s1, Settled(c, s1));
      FramedBase(c, Settled(c, s1), Dequeue(c, s));
      BaseTrans(c, s, s1, Settled(c, s1));
      BaseTrans(c, s, Settled(c, s1), Dequeue(c, s));
    } else {
      ReflexiveBase(c, s);
    }
  }

  lemma FramedBase(c: Config, s: State, r: State)
    requires Framed(c, s, r)
    ensures Base(c, s, r)
  {
  }

  /** One step of the dequeue loop, for an entry that has been sent. */
  lemma {:induction false} DequeueSent(c: Config, s: State)
    requires Sound(s) && !s.closed && s.queue != [] && c.mode != Completion
    ensures var r := Dequeue(c, s);
            && (s.log.inFlight > 1 && !r.closed && !r.log.resent ==> r.log.inFlight == s.log.inFlight - 1)
            && (s.log.inFlight > 0 && s.log.depth > 0 && !r.closed && !r.log.nested ==>
                  r.log.inFlight == s.log.inFlight - 1)
            && (s.log.depth > 0 && !r.closed && !r.log.nested ==>
                  s.queue[1..] <= r.queue && r.log.partial == s.log.partial)
    decreases Work(s), |s.w.script|, 4, 1
  {
    hide Dequeue; hide Settled;
    var s1 := Popped(s);
    PoppedBase(c, s);
    SettledFramed(c, s1);
    DequeueFramed(c, s);
    FramedTrans(c, s1, Settled(c, s1), Dequeue(c, s));
  }

  lemma {:induction false} DequeueNFramed(c: Config, s: State, n: nat)
    requires Whole(c, s) && c.mode != Completion
    ensures var r := DequeueN(c, s, n);
            && Base(c, s, r)
            && (s.log.depth > 0 && !r.closed && !r.log.nested && n <= |s.queue| ==>
                  s.queue[n..] <= r.queue && r.log.partial == s.log.partial)
            && (s.log.depth > 0 && !r.closed && !r.log.nested && n <= |s.queue| && n <= s.log.inFlight ==>
                  r.log.inFlight == s.log.inFlight - n)
    decreases Work(s), |s.w.script|, 5, n
  {
    hide Dequeue; hide Base; hide Framed;
    if n == 0 { ReflexiveBase(c, s); } else {
      var s1 := Dequeue(c, s);
      DequeueBase(c, s);
      BaseWhole(c, s, s1);
      if s.queue == [] { assert s1 == s by { DequeueEmpty(c, s); } } else { DequeueSent(c, s); }
      DequeueNFramed(c, s1, n - 1);
      BaseTrans(c, s, s1, DequeueN(c, s1, n - 1));
      MonotoneBase(c, s, s1);
      MonotoneBase(c, s1, DequeueN(c, s1, n - 1));
    }
  }

  lemma DequeueEmpty(c: Config, s: State)
    requires s.queue == []
    ensures Dequeue(c, s) == s
  {
  }

  lemma MonotoneBase(c: Config, s: State, r: State)
    requires Base(c, s, r)
    ensures Monotone(s, r) && (s.closed ==> r.closed)
  {
  }

  lemma {:induction false} FlushLoopFramed(c: Config, size: nat, s: State)
    requires Whole(c, s) && c.mode != Completion && size > 0
    ensures var (r, end) := FlushLoop(c, size, s);
            && Base(c, s, r)
            && (s.log.inFlight > 0 && !r.closed && !r.log.resent ==> r.log.inFlight == s.log.inFlight)
            && (s.log.depth > 0 && !r.closed && !r.log.nested && end != Drained ==> r.queue != [])
            && (s.log.depth > 0 && !r.closed && !r.log.nested && !r.log.partial && s.log.inFlight == 0 ==>
                  r.log.inFlight == 0)
    decreases Work(s), |s.w.script|, 6
  {
    hide DequeueN; hide Base; hide SendBatch;
    if s.queue == [] { ReflexiveBase(c, s); } else {
      var batch := s.queue[..Min(size, |s.queue|)];
      var sent := SendBatch(c.linux, c.ifaces, batch, s.w.sends);
      var s1 := Batched(s, sent);
      BatchedBase(c, s, sent);
      if sent.error.None? {
        BaseWhole(c, s, s1);
        var s2 := DequeueN(c, s1, sent.sent);
        DequeueNFramed(c, s1, sent.sent);
        BaseTrans(c, s, s1, s2);
        MonotoneBase(c, s1, s2);
        BaseWhole(c, s1, s2);
        if sent.sent == 0 { assert s2 == s1 by { DequeueNone(c, s1); } }
        if !sent.again && sent.sent == |batch| {
          FlushLoopFramed(c, size, s2);
          MonotoneBase(c, s2, FlushLoop(c, size, s2).0);
          BaseTrans(c, s, s2, FlushLoop(c, size, s2).0);
        }
      }
    }
  }

  lemma DequeueNone(c: Config, s: State)
    ensures DequeueN(c, s, 0) == s
  {
  }

  lemma {:induction false} FlushOutboundBase(c: Config, s: State)
    requires Whole(c, s) && c.mode != Completion
    ensures var r := FlushOutbound(c, s).s;
            && Base(c, s, r)
            && (s.log.inFlight > 0 && !r.closed && !r.log.resent ==> r.log.inFlight == s.log.inFlight)
            && (s.log.depth > 0 ==> r.log.nested)
    decreases Work(s), |s.w.script|, 7, 0
  {
    hide FlushLoop; hide Fire; hide Base; hide EnableWriteInterest; hide DisableWriteInterest;
    hide StartLoop; hide EndLoop;
    var (s1, end) := FlushLoop(c, MAX_WRITE_BATCH, StartLoop(s));
    StartWhole(c, s);
    FlushLoopFramed(c, MAX_WRITE_BATCH, StartLoop(s));
    InterestBase(c, s1);
    match end
    case SendFailed(_) => LoopBase(c, s, s1, s1); 
    case Blocked => LoopBase(c, s, s1, EnableWriteInterest(c, s1).s);
    case Drained =>
      var o := DisableWriteInterest(c, s1);
      LoopBase(c, s, s1, o.s);
      if o.error.None? {
        var s2 := EndLoop(o.s);
        BaseWhole(c, s, s2);
        FireFramed(c, s2, FlushComplete);
        FireKeeps(c, s2, Fire(c, s2, FlushComplete));
        BaseTrans(c, s, s2, Fire(c, s2, FlushComplete));
      }
  }

  lemma StartWhole(c: Config, s: State)
    requires Whole(c, s)
    ensures Whole(c, StartLoop(s)) && StartLoop(s).log.inFlight == s.log.inFlight
  {
  }

  lemma InterestedBase(c: Config, s: State, on: bool)
    ensures Base(c, s, Interested(s, on))
  {
  }

  lemma InterestBase(c: Config, s: State)
    ensures Base(c, s, EnableWriteInterest(c, s).s) && EnableWriteInterest(c, s).s.log == s.log
    ensures Base(c, s, DisableWriteInterest(c, s).s) && DisableWriteInterest(c, s).s.log == s.log
    ensures EnableWriteInterest(c, s).s.closed == s.closed == DisableWriteInterest(c, s).s.closed
  {
    hide Base;
    ReflexiveBase(c, s);
    InterestedBase(c, s, true);
    InterestedBase(c, s, false);
  }

  lemma FireKeeps(c: Config, s: State, r: State)
    requires Base(c, s, r) && (!s.closed ==> Framed(c, s, r)) && c.mode != Completion
    ensures s.log.inFlight > 0 && !r.closed && !r.log.resent ==> r.log.inFlight == s.log.inFlight
    ensures s.log.nested ==> r.log.nested
    ensures s.closed ==> r.closed
    ensures s.log.resent ==> r.log.resent
  {
  }

  /** From the start of a flush to the end of its loop. */
  lemma LoopBase(c: Config, s: State, s1: State, s2: State)
    requires Base(c, StartLoop(s), s1) && Base(c, s1, s2)
    ensures Base(c, s, EndLoop(s2)) && EndLoop(s2).log.inFlight == s2.log.inFlight
    ensures EndLoop(s2).closed == s2.closed && EndLoop(s2).log.resent == s2.log.resent
    ensures s.log.depth > 0 ==> EndLoop(s2).log.nested
  {
    BaseTrans(c, StartLoop(s), s1, s2);
  }

  lemma {:induction false} FlushOutboundFramed(c: Config, s: State)
    requires Sound(s) && !s.closed && c.mode != Completion
    ensures Framed(c, s, FlushOutbound(c, s).s)
    decreases Work(s), |s.w.script|, 7, 1
  {
    hide FlushOutbound;
    FlushOutboundBase(c, s);
  }

  // ---- receiving ----

  /** A batch has left the running call, and of it `ds` have been handed on. */
  function Given(s: State, rs: multiset<Resource>, ds: seq<Inbound>): State {
    s.(w := s.w.(inHand := s.w.inHand - rs), log := s.log.(dispatched := s.log.dispatched + ds))
  }

  lemma GivenSplit(s: State, x: multiset<Resource>, y: multiset<Resource>, d: seq<Inbound>, e: seq<Inbound>)
    ensures Given(s, x + y, d + e) == Given(Given(s, x, d), y, e)
  {
    assert s.w.inHand - (x + y) == s.w.inHand - x - y;
    assert s.log.dispatched + (d + e) == s.log.dispatched + d + e;
  }

  /** The references in hand and the datagrams handed on do not matter for a frame. */
  lemma FramedShift(c: Config, s: State, r: State, rs: multiset<Resource>, ds: seq<Inbound>)
    requires Framed(c, s, r)
    ensures Framed(c, Given(s, rs, ds), Given(r, rs, ds))
  {
  }

  lemma GivenSound(s: State, rs: multiset<Resource>, ds: seq<Inbound>)
    requires Sound(s)
    ensures Sound(Given(s, rs, ds)) && Given(s, multiset{}, []) == s
  {
    assert s.w.inHand - multiset{} == s.w.inHand;
    assert s.log.dispatched + [] == s.log.dispatched;
  }

  lemma HandOverFields(w: World, r: Resource)
    ensures var v := HandOver(w, r);
            && v.inHand == w.inHand - multiset{r} && v.held == w.held + multiset{r}
            && v.arrivals == w.arrivals && v.grants == w.grants && Apart(w, v)
  {
  }

  lemma EnvelopeFields(w: World)
    ensures var v := AcquireEnvelope(w).0;
            && v.inHand == w.inHand && v.held == w.held + multiset{EnvelopeRef(AcquireEnvelope(w).1)}
            && v.arrivals == w.arrivals && v.grants == w.grants && Apart(w, v)
  {
  }

  lemma ArrivedOuter(c: Config, s: State, m: Inbound)
    requires !s.closed
    ensures Arrived(c, s, m).w.grants == Given(s, Refs([m]), [m]).w.grants
    ensures Outer(Given(s, Refs([m]), [m]), Arrived(c, s, m))
  {
    hide HandOver; hide AcquireEnvelope; hide Refs; hide FromSocketAddress;
    RefsSplit([m]);
    HandOverFields(s.w, BufRef(m.payload.id));
    EnvelopeFields(HandOver(s.w, BufRef(m.payload.id)));
  }

  lemma {:induction false} FireChannelReadFramed(c: Config, s: State, m: Inbound)
    requires Sound(s) && !s.closed && c.hasChannel
    ensures Framed(c, Given(s, Refs([m]), [m]), FireChannelRead(c, s, m))
    decreases Work(s), |s.w.script|, 2
  {
    hide RunHandler; hide Framed; hide Refs; hide Given; hide Arrived; hide Outer;
    var s0 := Given(s, Refs([m]), [m]);
    GivenSound(s, Refs([m]), [m]);
    ArrivedOuter(c, s, m);
    var s1 := Arrived(c, s, m);
    OuterFramed(c, s0, s1);
    FramedSound(c, s0, s1);
    RunHandlerFramed(c, s1);
    FramedTrans(c, s0, s1, RunHandler(c, s1));
  }

  /** Of a batch the first `k` are handed on, all of them if the endpoint stays open. */
  lemma {:induction false} DispatchFramed(c: Config, s: State, ms: seq<Inbound>, any: bool) returns (k: nat)
    requires Sound(s) && c.hasChannel
    ensures k <= |ms| && Framed(c, Given(s, Refs(ms), ms[..k]), Dispatch(c, s, ms, any).0)
    ensures !Dispatch(c, s, ms, any).0.closed ==> k == |ms|
    ensures Dispatch(c, s, ms, any).1 == (any || k > 0) && (k > 0 <==> ms != [] && !s.closed)
    decreases Work(s), |s.w.script|, 3, |ms|
  {
    hide FireChannelRead; hide Framed; hide Given;
    if ms == [] {
      k := 0;
      NoRefs();
      GivenSound(s, Refs(ms), []);
      OuterFramed(c, s, s);
    } else if s.closed {
      k := 0;
      DiscardFramed(c, s, ms);
    } else {
      var t := FireChannelRead(c, s, ms[0]);
      var first, rest := Refs([ms[0]]), Refs(ms[1..]);
      FireChannelReadFramed(c, s, ms[0]);
      RefsSplit(ms);
      GivenSound(s, first, [ms[0]]);
      FramedSound(c, Given(s, first, [ms[0]]), t);
      var j := DispatchFramed(c, t, ms[1..], true);
      k := j + 1;
      assert ms[..k] == [ms[0]] + ms[1..][..j];
      GivenSplit(s, first, rest, [ms[0]], ms[1..][..j]);
      FramedShift(c, Given(s, first, [ms[0]]), t, rest, ms[1..][..j]);
      FramedTrans(c, Given(s, Refs(ms), ms[..k]), Given(t, rest, ms[1..][..j]), Dispatch(c, t, ms[1..], true).0);
    }
  }

  lemma FramedSound(c: Config, s: State, r: State)
    requires Framed(c, s, r) && Sound(s)
    ensures Sound(r)
  {
  }

  lemma DiscardFramed(c: Config, s: State, ms: seq<Inbound>)
    requires s.closed
    ensures Framed(c, Given(s, Refs(ms), []), s.(w := DiscardAll(s.w, Payloads(ms))))
  {
    assert s.log.dispatched + [] == s.log.dispatched;
  }

  lemma {:induction false} ReadReadyFramed(c: Config, s: State)
    requires Sound(s) && !s.closed && !s.log.reading && c.mode != Completion
    ensures Framed(c, s, ReadReady(c, s))
    decreases Work(s), |s.w.script|, 10
  {
    hide ReadLoop; hide Fire; hide Framed;
    OuterFramed(c, s, s);
    if c.hasAllocator && c.hasChannel {
      var n := if c.maxMessages <= 0 then 1 else c.maxMessages;
      ReadLoopFramed(c, s, n, false);
      var (s1, any, failed) := ReadLoop(c, s, n, false);
      FramedSound(c, s, s1);
      if any && !failed { FireFramed(c, s1, ReadComplete); FireAfter(c, s, s1, Fire(c, s1, ReadComplete)); }
    }
  }

  /** Telling the pipeline something at the end of an operation that may have closed the endpoint. */
  lemma FireAfter(c: Config, s: State, t: State, r: State)
    requires !s.closed && Framed(c, s, t) && Base(c, t, r) && (!t.closed ==> Framed(c, t, r))
    ensures Framed(c, s, r)
  {
  }

  lemma {:induction false} ReadLoopFramed(c: Config, s: State, remaining: int, any: bool)
    requires Sound(s) && c.hasChannel && !s.log.reading && c.mode != Completion
    ensures s.closed ==> ReadLoop(c, s, remaining, any).0 == s
    ensures Framed(c, s, ReadLoop(c, s, remaining, any).0)
    decreases Work(s), |s.w.script|, 9, if remaining > 0 then remaining else 0
  {
    hide Dispatch; hide Fire; hide Framed; hide ReceiveInbound; hide Close; hide SetReading; hide Refs; hide Given;
    hide Sound;
    if remaining <= 0 || s.closed { OuterFramed(c, s, s); } else {
      var got := ReceiveInbound(c.linux, s.w, c.readBufferSize, remaining);
      var s0 := SetReading(s.(w := got.w), true);
      WorldSound(s, got.w);
      SetReadingFields(s.(w := got.w), true);
      var (s1, any1) := Dispatch(c, s0, got.messages, any);
      var s2 := SetReading(s1, false);
      SetReadingFields(s1, false);
      var k := DispatchFramed(c, s0, got.messages, any);
      ReceiveHand(c.linux, s.w, c.readBufferSize, remaining);
      BatchFramed(c, s, got, s1, got.messages[..k]);
      FramedSound(c, s, s2);
      if got.error.Some? {
        var s3 := Fire(c, s2, Exception(got.error.value));
        FireFramed(c, s2, Exception(got.error.value));
        FireAfter(c, s, s2, s3);
        FramedSound(c, s, s3);
        CloseFramed(c, s3);
        FramedTrans(c, s, s3, Close(c, s3).s);
      } else if !got.drained && got.messages != [] {
        ReadLoopFramed(c, s2, remaining - |got.messages|, any1);
        FramedTrans(c, s, s2, ReadLoop(c, s2, remaining - |got.messages|, any1).0);
      }
    }
  }

  lemma WorldSound(s: State, w: World)
    requires Sound(s)
    ensures Sound(s.(w := w))
  {
  }

  lemma SetReadingFields(s: State, on: bool)
    ensures SetReading(s, on).w == s.w && SetReading(s, on).queue == s.queue && SetReading(s, on).closed == s.closed
    ensures SetReading(s, on).log == s.log.(reading := on)
    ensures Sound(s) ==> Sound(SetReading(s, on))
  {
  }

  /** One batch: what it took in hand it has handed over or given up. */
  lemma BatchFramed(c: Config, s: State, got: Received, s1: State, ds: seq<Inbound>)
    requires !s.closed && !s.log.reading && c.mode != Completion
    requires got.w.inHand == s.w.inHand + Refs(got.messages)
    requires Framed(c, Given(SetReading(s.(w := got.w), true), Refs(got.messages), ds), s1)
    ensures Framed(c, s, SetReading(s1, false))
  {
    assert got.w.inHand - Refs(got.messages) == s.w.inHand;
  }
}
