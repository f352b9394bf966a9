/**
 * One induction for all invariants: a property that every atom keeps holds after every operation, and in
 * every state in which a handler runs. It covers all scripts, socket outcomes and poller answers.
 */
module Preservation {
  import opened Wrappers
  import opened Addresses
  import opened World
  import opened EndpointState
  import opened EndpointSpec
  import opened Receiving
  import opened Frames

  /** What the operations themselves rely on. */
  ghost predicate Core(c: Config, s: State) {
    && Sound(s)
    && s.log.depth >= 0
    && (c.mode == NoLoop ==> !s.writeInterest)
    && (c.mode != Completion && !s.closed && s.log.depth == 0 && !s.log.nested && !s.log.partial ==>
          s.log.inFlight == 0)
    && (c.mode == Completion && !s.closed ==>
          && |s.w.pendingWrites| == (if s.writePending then 1 else 0) && s.log.inFlight <= 1
          && (s.writePending ==> s.queue != [] && s.log.inFlight == 1))
  }

  ghost predicate Preserves(c: Config, P: State -> bool) {
    forall a: Atom, s: State :: Enabled(c, a, s) && P(s) ==> P(Apply(c, a, s))
  }

  ghost predicate Invariant(c: Config, P: State -> bool) {
    Preserves(c, P) && forall s: State :: P(s) ==> Core(c, s)
  }

  lemma Step(c: Config, P: State -> bool, a: Atom, s: State)
    requires Preserves(c, P) && P(s) && Enabled(c, a, s)
    ensures P(Apply(c, a, s))
  {
  }

  lemma CoreOf(c: Config, P: State -> bool, s: State)
    requires Invariant(c, P) && P(s)
    ensures Core(c, s) && Sound(s)
  {
  }

  /** The core is itself such a property. */
  lemma CoreInvariant(c: Config)
    ensures Invariant(c, s => Core(c, s))
  {
    forall a: Atom, s: State | Enabled(c, a, s) && Core(c, s)
      ensures Core(c, Apply(c, a, s))
    {
      CoreStep(c, a, s);
    }
  }

  lemma SettledCore(c: Config, s: State)
    requires Core(c, s)
    ensures Core(c, Settled(c, s))
  {
  }

  lemma CoreStep(c: Config, a: Atom, s: State)
    requires Enabled(c, a, s) && Core(c, s)
    ensures Core(c, Apply(c, a, s))
  {
    hide Settled; hide Interested; hide Move; hide Movable; hide Marked; hide Markable;
    hide Appended; hide Popped; hide Batched; hide WriteSubmitted; hide WriteReturned; hide WriteCompleted;
    match a
    case Append(d) => AppendedCore(c, s, d); SettledCore(c, Appended(s, d));
    case Pop => PoppedCore(c, s); SettledCore(c, Popped(s));
    case BeginClose => SettledCore(c, s.(closed := true));
    case Interest(on) => InterestedCore(c, s, on);
    case Batch(r) => BatchedCore(c, s, r);
    case WriteOffered(to) => WriteSubmittedCore(c, s, to);
    case ReturnWrite => WriteReturnedCore(c, s);
    case CompleteWrite => WriteCompletedCore(c, s); SettledCore(c, WriteCompleted(s));
    case Note(m) => MarkedCore(c, s, m);
    case _ =>
  }

  lemma AppendedCore(c: Config, s: State, d: Datagram)
    requires Core(c, s)
    ensures Core(c, Appended(s, d))
  {
  }

  lemma PoppedCore(c: Config, s: State)
    requires Enabled(c, Pop, s) && Core(c, s)
    ensures Core(c, Popped(s))
  {
  }

  lemma BatchedCore(c: Config, s: State, r: SendResult)
    requires Enabled(c, Batch(r), s) && Core(c, s)
    ensures Core(c, Batched(s, r))
  {
  }

  lemma WriteSubmittedCore(c: Config, s: State, to: SocketAddress)
    requires Enabled(c, WriteOffered(to), s) && Core(c, s)
    ensures Core(c, WriteSubmitted(s, to))
  {
  }

  lemma WriteReturnedCore(c: Config, s: State)
    requires s.w.pendingWrites != [] && Core(c, s)
    ensures Core(c, WriteReturned(s))
  {
  }

  lemma WriteCompletedCore(c: Config, s: State)
    requires Enabled(c, CompleteWrite, s) && Core(c, s)
    ensures Core(c, WriteCompleted(s))
  {
    hide Envelopes; hide Owned;
  }

  lemma MarkedCore(c: Config, s: State, m: Mark)
    requires Markable(c, m, s) && Core(c, s)
    ensures Core(c, Marked(c, m, s))
  {
  }

  lemma InterestedCore(c: Config, s: State, on: bool)
    requires Core(c, s) && c.mode != NoLoop
    ensures Core(c, Interested(s, on))
  {
  }

  // ---- one atom ----

  lemma StepAppend(c: Config, P: State -> bool, s: State, d: Datagram)
    requires Invariant(c, P) && P(s) && !s.closed && multiset(Owned(d)) <= s.w.held
    ensures P(Settled(c, Appended(s, d)))
  {
    Step(c, P, Append(d), s);
  }

  lemma StepPop(c: Config, P: State -> bool, s: State)
    requires Invariant(c, P) && P(s)
    requires s.queue != [] && (s.closed || (c.mode != Completion && s.log.depth > 0 && (s.log.inFlight > 0 || s.log.resent)))
    ensures P(Settled(c, Popped(s)))
  {
    Step(c, P, Pop, s);
  }

  lemma StepBatch(c: Config, P: State -> bool, s: State, r: SendResult)
    requires Invariant(c, P) && P(s)
    requires !s.closed && c.mode != Completion && r == FirstSend(c, s) && s.log.depth > 0
    requires r.error.Some? && r.taken > 0 ==> !c.linux
    requires !s.log.nested && !s.log.partial ==> s.log.inFlight == 0
    ensures P(Batched(s, r))
  {
    Step(c, P, Batch(r), s);
  }

  lemma StepInterest(c: Config, P: State -> bool, s: State, on: bool)
    requires Invariant(c, P) && P(s) && c.mode == Readiness && s.writeInterest != on && s.log.depth > 0
    ensures P(Interested(s, on))
  {
    Step(c, P, Interest(on), s);
  }

  lemma StepClose(c: Config, P: State -> bool, s: State)
    requires Invariant(c, P) && P(s) && !s.closed
    ensures P(Settled(c, s.(closed := true)))
  {
    Step(c, P, BeginClose, s);
  }

  lemma StepNote(c: Config, P: State -> bool, s: State, m: Mark)
    requires Invariant(c, P) && P(s) && Markable(c, m, s)
    ensures P(Marked(c, m, s))
  {
    Step(c, P, Note(m), s);
  }

  lemma StepTell(c: Config, P: State -> bool, s: State, e: Event)
    requires Invariant(c, P) && P(s) && Tellable(e)
    ensures P(Emit(s, e))
  {
    StepNote(c, P, s, Tell(e));
  }

  lemma StepHold(c: Config, P: State -> bool, s: State, h: Holding)
    requires Invariant(c, P) && P(s) && Movable(h, s.w)
    ensures P(s.(w := Move(h, s.w)))
  {
    Step(c, P, Hold(h), s);
  }

  lemma StepOutside(c: Config, P: State -> bool, s: State, w: World)
    requires Invariant(c, P) && P(s) && SameHoldings(w, s.w)
    ensures P(s.(w := w))
  {
    StepHold(c, P, s, Outside(w));
  }

  // ---- handlers ----

  lemma {:induction false} RunHandlerPreserves(c: Config, P: State -> bool, s: State)
    requires Invariant(c, P) && P(s)
    ensures P(RunHandler(c, s))
    decreases Work(s), |s.w.script|, 0
  {
    hide React; hide Invariant;
    if s.w.script != [] {
      var w1 := s.w.(script := s.w.script[1..]);
      StepOutside(c, P, s, w1);
      var s1 := s.(w := w1);
      if s.w.script[0] != Return {
        ReactPreserves(c, P, s1, s.w.script[0]);
        RunHandlerPreserves(c, P, React(c, s1, s.w.script[0]));
      }
    }
  }

  lemma {:induction false} ReactPreserves(c: Config, P: State -> bool, s: State, action: Reaction)
    requires Invariant(c, P) && P(s)
    ensures P(React(c, s, action))
    decreases Work(s) + 1, |s.w.script|, 12
  {
    hide Write; hide Flush; hide Read; hide Close; hide Invariant; hide Handle;
    match action
    case DoWrite(m) => if Owns(s.w, m) { WritePreserves(c, P, s, m); }
    case DoFlush => FlushPreserves(c, P, s);
    case DoRead => if !(s.log.reading && c.mode != Completion) { ReadPreserves(c, P, s); }
    case DoClose => ClosePreserves(c, P, s);
    case _ => HandlePreserves(c, P, s, action);
  }

  lemma HandlePreserves(c: Config, P: State -> bool, s: State, action: Reaction)
    requires Invariant(c, P) && P(s)
    ensures P(s.(w := Handle(s.w, action)))
  {
    hide Invariant; hide HandlerBuf; hide Obtain; hide Drop; hide SameHoldings;
    match action
    case DoAllocate => StepHold(c, P, s, MakeHandlerBuf);
    case DoRetain(x) => RetainPreserves(c, P, s, x);
    case DoRelease(x) => LosePreserves(c, P, s, x);
    case DoAutoRead(on) => AutoReadHoldings(s.w); StepOutside(c, P, s, s.w.(autoRead := on));
    case _ => SelfWorld(s);
  }

  lemma SelfWorld(s: State)
    ensures s.(w := s.w) == s
  {
  }

  lemma RetainPreserves(c: Config, P: State -> bool, s: State, x: Resource)
    requires Invariant(c, P) && P(s)
    ensures P(s.(w := Handle(s.w, DoRetain(x))))
  {
    hide Invariant; hide Obtain;
    SelfWorld(s);
    if x.BufRef? && x in s.w.held { StepHold(c, P, s, Retain(x)); }
  }

  lemma LosePreserves(c: Config, P: State -> bool, s: State, x: Resource)
    requires Invariant(c, P) && P(s)
    ensures P(s.(w := Handle(s.w, DoRelease(x))))
  {
    hide Invariant; hide Drop;
    SelfWorld(s);
    if x in s.w.held { StepHold(c, P, s, LoseOne(x)); }
  }

  lemma AutoReadHoldings(w: World)
    ensures forall on :: SameHoldings(w.(autoRead := on), w)
  {
  }

  lemma {:induction false} FirePreserves(c: Config, P: State -> bool, s: State, e: Event)
    requires Invariant(c, P) && P(s) && Tellable(e)
    ensures P(Fire(c, s, e))
    decreases Work(s), |s.w.script|, 1
  {
    hide RunHandler; hide Invariant; hide Emit;
    if c.hasChannel { StepTell(c, P, s, e); EmitWork(s, e); RunHandlerPreserves(c, P, Emit(s, e)); }
  }

  lemma EmitWork(s: State, e: Event)
    ensures Work(Emit(s, e)) == Work(s) && Emit(s, e).w == s.w
  {
  }

  lemma {:induction false} NotifyPreserves(c: Config, P: State -> bool, s: State)
    requires Invariant(c, P) && P(s)
    ensures P(Notify(c, s))
    decreases Work(s), |s.w.script|, 1
  {
    hide RunHandler; hide Invariant;
    if c.hasChannel { RunHandlerPreserves(c, P, s); }
  }

  /** The flag and the level change together; then the handlers run. */
  lemma {:induction false} UpdatePreserves(c: Config, P: State -> bool, s: State)
    requires Invariant(c, P) && P(Settled(c, s))
    ensures P(UpdateWritability(c, s))
    decreases Work(s), |s.w.script|, 3
  {
    hide Notify; hide Invariant; hide Toggle;
    ToggleWork(c, s, false);
    ToggleWork(c, s, true);
    var t := Settled(c, s);
    NotifyPreserves(c, P, t);
  }

  lemma ToggleWork(c: Config, s: State, on: bool)
    ensures Work(Toggle(c, s, on)) == Work(s) && Toggle(c, s, on).w == s.w
  {
  }

  lemma {:induction false} EnqueuePreserves(c: Config, P: State -> bool, s: State, d: Datagram)
    requires Invariant(c, P) && P(s) && !s.closed && multiset(Owned(d)) <= s.w.held
    ensures P(Enqueue(c, s, d))
    decreases Work(s) + 1, |s.w.script|, 4
  {
    hide UpdateWritability; hide Invariant; hide Settled;
    StepAppend(c, P, s, d);
    UpdatePreserves(c, P, Appended(s, d));
  }

  lemma {:induction false} DequeuePreserves(c: Config, P: State -> bool, s: State)
    requires Invariant(c, P) && P(s)
    requires s.queue != [] ==> s.closed || (c.mode != Completion && s.log.depth > 0 && (s.log.inFlight > 0 || s.log.resent))
    ensures P(Dequeue(c, s))
    decreases Work(s), |s.w.script|, 4
  {
    hide UpdateWritability; hide Invariant; hide Settled;
    if s.queue != [] {
      StepPop(c, P, s);
      UpdatePreserves(c, P, Popped(s));
    }
  }

  // ---- the interface ----

  lemma RequestedOwned(c: Config, m: Message)
    requires RequestedDatagram(c, m).Some?
    ensures multiset(Owned(RequestedDatagram(c, m).value)) == multiset(MessageOwned(m))
  {
  }

  lemma {:induction false} WritePreserves(c: Config, P: State -> bool, s: State, m: Message)
    requires Invariant(c, P) && P(s) && multiset(MessageOwned(m)) <= s.w.held
    ensures P(Write(c, s, m).s)
    decreases Work(s) + 1, |s.w.script|, 5
  {
    hide Enqueue; hide Invariant; hide RequestedDatagram; hide MessageOwned; hide Owned;
    match RequestedDatagram(c, m)
    case None => StepHold(c, P, s, Lose(MessageOwned(m)));
    case Some(d) =>
      RequestedOwned(c, m);
      if s.closed { StepHold(c, P, s, Lose(Owned(d))); } else { EnqueuePreserves(c, P, s, d); }
  }

  lemma {:induction false} FlushPreserves(c: Config, P: State -> bool, s: State)
    requires Invariant(c, P) && P(s)
    ensures P(Flush(c, s).s)
    decreases Work(s), |s.w.script|, 8
  {
    hide FlushOutbound; hide Invariant; hide SubmitWrite;
    if !s.closed {
      if c.mode == Completion { SubmitWritePreserves(c, P, s); } else {
        CoreOf(c, P, s);
        FlushOutboundPreserves(c, P, s);
      }
    }
  }

  lemma {:induction false} ReadPreserves(c: Config, P: State -> bool, s: State)
    requires Invariant(c, P) && P(s) && (c.mode == Completion || !s.log.reading)
    ensures P(Read(c, s).s)
    decreases Work(s), |s.w.script|, 11
  {
    hide ReadReady; hide Invariant; hide SubmitRead;
    if !s.closed {
      if c.mode == Completion { SubmitReadPreserves(c, P, s); } else { ReadReadyPreserves(c, P, s); }
    }
  }

  lemma SubmitWritePreserves(c: Config, P: State -> bool, s: State)
    requires Invariant(c, P) && P(s) && c.mode == Completion
    ensures P(SubmitWrite(c, s).s)
  {
    hide ToSocketAddress; hide Invariant;
    if !s.closed && !s.writePending && s.queue != [] && ToSocketAddress(c.ifaces, s.queue[0].addr).Success? {
      StepOutside(c, P, s, SkipAnswer(s.w));
      var s1 := s.(w := SkipAnswer(s.w));
      if NextAnswer(s.w) == Accepted {
        UseInvariant(c, P);
        Step(c, P, WriteOffered(ToSocketAddress(c.ifaces, s.queue[0].addr).value), s1);
      }
    }
  }

  lemma UseInvariant(c: Config, P: State -> bool)
    requires Invariant(c, P)
    ensures Preserves(c, P)
  {
  }

  lemma SubmitReadPreserves(c: Config, P: State -> bool, s: State)
    requires Invariant(c, P) && P(s) && !s.closed && c.mode == Completion
    ensures P(SubmitRead(c, s).s)
  {
    hide Invariant; hide OfferRead; hide AcquireBuf;
    if !s.readPending && c.hasAllocator {
      AcquirePreserves(c, P, s);
      AcquireHand(s.w);
      var got := AcquireBuf(s.w);
      if got.1.Some? { OfferReadPreserves(c, P, s.(w := got.0), got.1.value); }
    }
  }

  lemma GrantHoldings(w: World)
    ensures forall gs :: SameHoldings(w.(grants := gs), w)
  {
  }

  lemma AcquirePreserves(c: Config, P: State -> bool, s: State)
    requires Invariant(c, P) && P(s)
    ensures P(s.(w := AcquireBuf(s.w).0))
  {
    hide Invariant; hide NewBuf; hide SameHoldings;
    GrantHoldings(s.w);
    GrantHoldings(NewBuf(s.w));
    if s.w.grants != [] && !s.w.grants[0] {
      StepOutside(c, P, s, s.w.(grants := s.w.grants[1..]));
    } else {
      StepHold(c, P, s, MakeBuf);
      var s1 := s.(w := NewBuf(s.w));
      StepOutside(c, P, s1, s1.w.(grants := if s.w.grants == [] then [] else s.w.grants[1..]));
    }
  }

  lemma OfferReadPreserves(c: Config, P: State -> bool, s: State, id: nat)
    requires Invariant(c, P) && P(s) && !s.closed && c.mode == Completion && !s.readPending
    requires BufRef(id) in s.w.inHand
    ensures P(OfferRead(s, id).s)
  {
    hide Invariant; hide LoseRef; hide ReadSubmitted; hide SkipAnswer; hide SameHoldings;
    SkipHoldings(s.w);
    StepOutside(c, P, s, SkipAnswer(s.w));
    var s1 := s.(w := SkipAnswer(s.w));
    if NextAnswer(s.w) == Accepted {
      UseInvariant(c, P);
      Step(c, P, ReadOffered(id), s1);
      SubmittedHand(s1, id);
      LoseRefPreserves(c, P, ReadSubmitted(s1, id), id);
    } else {
      LoseRefPreserves(c, P, s1, id);
    }
  }

  lemma SkipHoldings(w: World)
    ensures SameHoldings(SkipAnswer(w), w) && SkipAnswer(w).inHand == w.inHand
  {
  }

  lemma SubmittedHand(s: State, id: nat)
    ensures ReadSubmitted(s, id).w.inHand == s.w.inHand
  {
  }

  lemma LoseRefPreserves(c: Config, P: State -> bool, s: State, id: nat)
    requires Invariant(c, P) && P(s) && BufRef(id) in s.w.inHand
    ensures P(LoseRef(s, id))
  {
    hide Invariant; hide Discard;
    StepHold(c, P, s, DiscardOne(id));
  }

  // ---- closing ----

  lemma {:induction false} ReleaseOutboundPreserves(c: Config, P: State -> bool, s: State)
    requires Invariant(c, P) && P(s) && s.closed && !s.writable
    ensures P(ReleaseOutbound(c, s))
    decreases |s.queue|
  {
    hide Invariant; hide UpdateWritability;
    if s.queue == [] {
      StepNote(c, P, s, FreeEntries);
    } else {
      UpdateClosed(c, Popped(s));
      StepPop(c, P, s);
      assert Settled(c, Popped(s)) == Popped(s);
      ReleaseOutboundPreserves(c, P, Popped(s));
    }
  }

  lemma CloseResourcesPreserves(c: Config, P: State -> bool, s: State)
    requires Invariant(c, P) && P(s) && s.closed && s.queue == [] && s.spare == 0 && Unclosed(s)
    ensures P(CloseResources(c, s))
  {
    hide Invariant;
    StepNote(c, P, s, CloseFd);
    if c.hasAllocator { StepNote(c, P, Marked(c, CloseFd, s), CloseAllocator); }
  }

  lemma {:induction false} ClosePreserves(c: Config, P: State -> bool, s: State)
    requires Invariant(c, P) && P(s)
    ensures P(Close(c, s).s)
    decreases Work(s), |s.w.script|, 7
  {
    hide Invariant; hide CloseWritability; hide ReleaseOutbound; hide FireInactiveOnce; hide CloseResources;
    hide Settled;
    if !s.closed {
      CoreOf(c, P, s);
      var s0 := s.(closed := true);
      StepClose(c, P, s);
      CloseWritabilityIs(c, s0);
      UpdatePreserves(c, P, s0);
      var s1 := CloseWritability(c, s0);
      CloseWritabilityFramed(c, s0);
      ReleaseOutboundFrame(c, s1);
      ReleaseOutboundPreserves(c, P, s1);
      var s2 := ReleaseOutbound(c, s1);
      CloseResourcesPreserves(c, P, s2);
      var s3 := CloseResources(c, s2);
      CloseResourcesFields(c, s2);
      FireInactivePreserves(c, P, s3);
    }
  }

  lemma CloseWritabilityIs(c: Config, s: State)
    requires s.closed
    ensures CloseWritability(c, s) == UpdateWritability(c, s)
  {
  }

  lemma CloseResourcesFields(c: Config, s: State)
    ensures var r := CloseResources(c, s);
            && r.log.fdCloses == s.log.fdCloses + 1 && r.inactiveFired == s.inactiveFired
            && r.w == s.w && r.queue == s.queue
  {
  }

  lemma {:induction false} FireInactivePreserves(c: Config, P: State -> bool, s: State)
    requires Invariant(c, P) && P(s) && s.log.fdCloses == 1 && !s.inactiveFired
    ensures P(FireInactiveOnce(c, s))
    decreases Work(s), |s.w.script|, 2
  {
    hide Invariant; hide RunHandler;
    StepNote(c, P, s, MarkInactive);
    if c.hasChannel { RunHandlerPreserves(c, P, MarkedInactive(c, s)); }
  }

  // ---- readiness mode ----

  lemma {:induction false} DequeueNPreserves(c: Config, P: State -> bool, s: State, n: nat)
    requires Invariant(c, P) && P(s) && c.mode != Completion
    requires s.closed || (s.log.depth > 0 && (s.log.resent || n <= s.log.inFlight))
    ensures P(DequeueN(c, s, n))
    decreases Work(s), |s.w.script|, 5, n
  {
    hide Invariant; hide Dequeue;
    if n > 0 {
      CoreOf(c, P, s);
      DequeuePreserves(c, P, s);
      if s.queue == [] { DequeueEmpty(c, s); }
      else if !s.closed { DequeueSent(c, s); DequeueBase(c, s); MonotoneBase(c, s, Dequeue(c, s)); }
      else { DequeueClosed(c, s); }
      DequeueNPreserves(c, P, Dequeue(c, s), n - 1);
    }
  }

  lemma DequeueClosed(c: Config, s: State)
    requires Sound(s) && s.closed && s.queue != []
    ensures Dequeue(c, s).closed
  {
    hide Dequeue;
    DequeueFramed(c, s);
  }

  lemma {:induction false} FlushLoopPreserves(c: Config, P: State -> bool, s: State)
    requires Invariant(c, P) && P(s) && c.mode != Completion && s.log.depth > 0
    requires Whole(c, s) && (!s.closed && !s.log.nested && !s.log.partial ==> s.log.inFlight == 0)
    ensures P(FlushLoop(c, MAX_WRITE_BATCH, s).0)
    decreases Work(s), |s.w.script|, 6
  {
    hide Invariant; hide DequeueN; hide SendBatch; hide Base; hide Batched;
    if s.queue != [] {
      var sent := FirstSend(c, s);
      var s1 := Batched(s, sent);
      StepBatch(c, P, s, sent);
      BatchedFields(s, sent);
      if sent.error.None? {
        BatchedBase(c, s, sent);
        BaseWhole(c, s, s1);
        DequeueNPreserves(c, P, s1, sent.sent);
        if !sent.again && sent.sent == Min(MAX_WRITE_BATCH, |s.queue|) {
          DequeueNFramed(c, s1, sent.sent);
          var s2 := DequeueN(c, s1, sent.sent);
          BaseWhole(c, s1, s2);
          MonotoneBase(c, s1, s2);
          FlushLoopPreserves(c, P, s2);
        }
      }
    }
  }

  lemma BatchedFields(s: State, r: SendResult)
    requires r.taken <= |s.queue|
    ensures var t := Batched(s, r);
            && t.closed == s.closed && t.queue == s.queue && t.w.script == s.w.script && t.log.depth == s.log.depth
            && t.log.inFlight == (if r.taken > 0 then r.taken else s.log.inFlight)
            && t.log.nested == s.log.nested && (s.log.partial ==> t.log.partial)
  {
  }

  /** The send loop starts with nothing in flight, unless something has gone wrong before. */
  lemma StartReady(c: Config, s: State)
    requires Core(c, s) && c.mode != Completion
    ensures var r := StartLoop(s);
            && r.log.depth > 0
            && (!r.closed && !r.log.nested && !r.log.partial ==> r.log.inFlight == 0)
  {
  }

  /** The send loop has ended in a state whose interest flag agrees with its queue. */
  lemma EndMarkable(c: Config, s0: State, s1: State, s2: State)
    requires s0.log.depth > 0 && Monotone(s0, s1)
    requires s2.log == s1.log && s2.closed == s1.closed && s2.queue == s1.queue
    requires !s1.closed && !s1.log.nested && !s1.log.partial && s0.log.inFlight == 0 ==> s1.log.inFlight == 0
    requires !s1.closed && !s1.log.nested ==> s1.queue != [] || !s2.writeInterest
    requires !s0.closed && !s0.log.nested && !s0.log.partial ==> s0.log.inFlight == 0
    requires s0.closed ==> s1.closed
    ensures Markable(c, EndFlush, s2)
  {
  }

  lemma {:induction false} FlushOutboundPreserves(c: Config, P: State -> bool, s: State)
    requires Invariant(c, P) && P(s) && c.mode != Completion && Whole(c, s)
    ensures P(FlushOutbound(c, s).s)
    decreases Work(s), |s.w.script|, 7
  {
    hide Invariant; hide FlushLoop; hide Fire; hide Base; hide EnableWriteInterest; hide DisableWriteInterest;
    hide Core; hide Whole; hide Monotone; hide StartLoop; hide EndLoop;
    CoreOf(c, P, s);
    var s0 := StartLoop(s);
    StartPreserves(c, P, s);
    StartWhole(c, s);
    StartReady(c, s);
    FlushLoopPreserves(c, P, s0);
    FlushLoopFramed(c, MAX_WRITE_BATCH, s0);
    var (s1, end) := FlushLoop(c, MAX_WRITE_BATCH, s0);
    MonotoneBase(c, s0, s1);
    FlushEnding(c, P, s0, s1, end);
  }

  lemma {:induction false} FlushEnding(c: Config, P: State -> bool, s0: State, s1: State, end: LoopEnd)
    requires Invariant(c, P) && P(s1) && c.mode != Completion
    requires s0.log.depth > 0 && Monotone(s0, s1) && (s0.closed ==> s1.closed)
    requires !s1.closed && !s1.log.nested && !s1.log.partial && s0.log.inFlight == 0 ==> s1.log.inFlight == 0
    requires !s1.closed && !s1.log.nested && end != Drained ==> s1.queue != []
    requires !s0.closed && !s0.log.nested && !s0.log.partial ==> s0.log.inFlight == 0
    requires |s1.w.script| <= |s0.w.script| && Work(s1) <= Work(s0)
    ensures end.SendFailed? ==> P(EndLoop(s1))
    ensures P(EndLoop(EnableWriteInterest(c, s1).s)) || end != Blocked
    ensures var o := DisableWriteInterest(c, s1);
            end == Drained ==> P(EndLoop(o.s)) && (o.error.None? ==> P(Fire(c, EndLoop(o.s), FlushComplete)))
    decreases Work(s0), |s0.w.script|, 6
  {
    hide Invariant; hide Fire; hide EnableWriteInterest; hide DisableWriteInterest;
    hide Markable; hide Core; hide Monotone; hide EndLoop;
    CoreOf(c, P, s1);
    SameDepth(s0, s1);
    InterestPreserves(c, P, s1);
    match end
    case SendFailed(_) => EndMarkable(c, s0, s1, s1); EndPreserves(c, P, s1);
    case Blocked =>
      var o := EnableWriteInterest(c, s1);
      EndMarkable(c, s0, s1, o.s);
      EndPreserves(c, P, o.s);
    case Drained =>
      var o := DisableWriteInterest(c, s1);
      EndMarkable(c, s0, s1, o.s);
      EndPreserves(c, P, o.s);
      if o.error.None? { FirePreserves(c, P, EndLoop(o.s), FlushComplete); }
  }

  lemma EndPreserves(c: Config, P: State -> bool, s: State)
    requires Invariant(c, P) && P(s) && Markable(c, EndFlush, s)
    ensures P(EndLoop(s))
  {
    hide Invariant; hide Markable;
    StepNote(c, P, s, EndFlush);
  }

  lemma StartPreserves(c: Config, P: State -> bool, s: State)
    requires Invariant(c, P) && P(s) && c.mode != Completion
    ensures P(StartLoop(s))
  {
    hide Invariant;
    StepNote(c, P, s, BeginFlush);
  }

  lemma SameDepth(s: State, r: State)
    requires Monotone(s, r)
    ensures r.log.depth == s.log.depth
  {
  }

  lemma InterestPreserves(c: Config, P: State -> bool, s: State)
    requires Invariant(c, P) && P(s) && c.mode != Completion && Core(c, s) && s.log.depth > 0
    ensures var r := EnableWriteInterest(c, s).s;
            P(r) && r.queue == s.queue && r.log == s.log && r.closed == s.closed && r.w.script == s.w.script
    ensures var r := DisableWriteInterest(c, s).s;
            P(r) && r.queue == s.queue && r.log == s.log && r.closed == s.closed && r.w.script == s.w.script
            && !r.writeInterest
  {
    hide Invariant;
    if c.mode == Readiness { StepInterest(c, P, s, !s.writeInterest); }
  }

  // ---- receiving ----

  lemma ArrivalHoldings(w: World)
    ensures forall xs :: SameHoldings(w.(arrivals := xs), w)
  {
  }

  // The lemmas on receiving speak of a state `s` whose world has been replaced by `w`.

  lemma WithHold(c: Config, P: State -> bool, s: State, w: World, h: Holding)
    requires Invariant(c, P) && P(s.(w := w)) && Movable(h, w)
    ensures P(s.(w := Move(h, w)))
  {
    hide Invariant; hide Move; hide Movable;
    StepHold(c, P, s.(w := w), h);
  }

  lemma WithDiscard(c: Config, P: State -> bool, s: State, w: World, id: nat)
    requires Invariant(c, P) && P(s.(w := w)) && BufRef(id) in w.inHand
    ensures P(s.(w := Discard(w, id)))
  {
    hide Invariant; hide Discard;
    WithHold(c, P, s, w, DiscardOne(id));
  }

  lemma WithDiscards(c: Config, P: State -> bool, s: State, w: World, ids: seq<nat>)
    requires Invariant(c, P) && P(s.(w := w)) && BufRefs(ids) <= w.inHand
    ensures P(s.(w := DiscardAll(w, ids)))
  {
    hide Invariant; hide DiscardAll; hide Bufs;
    WithHold(c, P, s, w, DiscardMany(ids));
  }

  lemma WithArrivals(c: Config, P: State -> bool, s: State, w: World, xs: seq<Arrival>)
    requires Invariant(c, P) && P(s.(w := w))
    ensures P(s.(w := w.(arrivals := xs)))
  {
    hide Invariant; hide SameHoldings;
    ArrivalHoldings(w);
    WithHold(c, P, s, w, Outside(w.(arrivals := xs)));
  }

  lemma WithAcquire(c: Config, P: State -> bool, s: State, w: World)
    requires Invariant(c, P) && P(s.(w := w))
    ensures P(s.(w := AcquireBuf(w).0))
  {
    hide Invariant; hide AcquireBuf;
    AcquirePreserves(c, P, s.(w := w));
  }

  lemma SinglePreserves(c: Config, P: State -> bool, s: State, w: World, size: nat)
    requires Invariant(c, P) && P(s.(w := w))
    ensures P(s.(w := ReceiveSingle(w, size).w))
  {
    hide Invariant; hide AcquireBuf; hide FromRawSockaddr; hide Discard;
    WithAcquire(c, P, s, w);
    AcquireHand(w);
    var (w1, got) := AcquireBuf(w);
    if got.Some? {
      WithDiscard(c, P, s, w1, got.value);
      if w1.arrivals != [] {
        WithArrivals(c, P, s, w1, w1.arrivals[1..]);
        WithDiscard(c, P, s, w1.(arrivals := w1.arrivals[1..]), got.value);
      }
    }
  }

  lemma {:induction false} FallbackPreserves(c: Config, P: State -> bool, s: State, w: World, size: nat, limit: nat,
                                             done: seq<Inbound>)
    requires Invariant(c, P) && P(s.(w := w)) && |done| <= limit
    ensures P(s.(w := FallbackReceive(w, size, limit, done).w))
    decreases limit - |done|
  {
    hide Invariant; hide ReceiveSingle;
    if |done| < limit {
      SinglePreserves(c, P, s, w, size);
      var one := ReceiveSingle(w, size);
      if one.messages != [] {
        FallbackPreserves(c, P, s, one.w, size, limit, done + [one.messages[0]]);
      }
    }
  }

  lemma {:induction false} PreparePreserves(c: Config, P: State -> bool, s: State, w: World, limit: nat, ids: seq<nat>)
    requires Invariant(c, P) && P(s.(w := w)) && |ids| <= limit && BufRefs(ids) <= w.inHand
    ensures P(s.(w := Prepare(w, limit, ids).0))
    decreases limit - |ids|
  {
    hide Invariant; hide AcquireBuf; hide DiscardAll; hide BufRefs;
    if |ids| < limit {
      WithAcquire(c, P, s, w);
      AcquireHand(w);
      var (w1, got) := AcquireBuf(w);
      if got.None? {
        WithDiscards(c, P, s, w1, ids);
      } else {
        BufRefsAppend(ids, got.value);
        PreparePreserves(c, P, s, w1, limit, ids + [got.value]);
      }
    }
  }

  lemma UnpackPreserves(c: Config, P: State -> bool, s: State, w: World, size: nat, packets: seq<Arrival>, ids: seq<nat>)
    requires Invariant(c, P) && P(s.(w := w)) && BufRefs(ids) <= w.inHand
    requires |packets| <= |ids| && forall i :: 0 <= i < |packets| ==> packets[i].Packet?
    ensures P(s.(w := Unpack(w, size, packets, ids, []).w))
  {
    hide Invariant; hide Unpack; hide DiscardAll; hide BufRefs;
    assert Payloads([]) == ids[..0];
    UnpackHand(w, size, packets, ids, []);
    var k := |Unpack(w, size, packets, ids, []).messages|;
    BufRefsSplit(ids, k);
    WithDiscards(c, P, s, w, ids[k..]);
  }

  lemma LinuxPreserves(c: Config, P: State -> bool, s: State, w: World, size: nat, limit: nat)
    requires Invariant(c, P) && P(s.(w := w)) && limit > 0
    ensures P(s.(w := LinuxReceive(w, size, limit).w))
  {
    hide Invariant; hide Prepare; hide Unpack; hide DiscardAll; hide BufRefs; hide PacketPrefix;
    NoBufs();
    PreparePreserves(c, P, s, w, limit, []);
    PrepareHand(w, limit, []);
    var (w1, prepared) := Prepare(w, limit, []);
    if prepared.Some? {
      var ids := prepared.value;
      var count := PacketPrefix(w1.arrivals, |ids|);
      if w1.arrivals == [] {
        WithDiscards(c, P, s, w1, ids);
      } else if count == 0 {
        WithArrivals(c, P, s, w1, w1.arrivals[1..]);
        WithDiscards(c, P, s, w1.(arrivals := w1.arrivals[1..]), ids);
      } else {
        WithArrivals(c, P, s, w1, w1.arrivals[count..]);
        UnpackPreserves(c, P, s, w1.(arrivals := w1.arrivals[count..]), size, w1.arrivals[..count], ids);
      }
    }
  }

  lemma ReceivePreserves(c: Config, P: State -> bool, s: State, size: nat, limit: int)
    requires Invariant(c, P) && P(s)
    ensures P(s.(w := ReceiveInbound(c.linux, s.w, size, limit).w))
  {
    hide Invariant; hide ReceiveSingle; hide LinuxReceive; hide FallbackReceive;
    assert s.(w := s.w) == s;
    if limit <= 1 { SinglePreserves(c, P, s, s.w, size); }
    else if c.linux { LinuxPreserves(c, P, s, s.w, size, Min(limit, MAX_READ_BATCH)); }
    else { FallbackPreserves(c, P, s, s.w, size, Min(limit, MAX_READ_BATCH), []); }
  }

  lemma {:induction false} FireChannelReadPreserves(c: Config, P: State -> bool, s: State, m: Inbound)
    requires Invariant(c, P) && P(s) && c.hasChannel && BufRef(m.payload.id) in s.w.inHand
    ensures P(FireChannelRead(c, s, m))
    decreases Work(s), |s.w.script|, 2
  {
    hide Invariant; hide RunHandler; hide Arrived;
    ArrivedPreserves(c, P, s, m);
    RunHandlerPreserves(c, P, Arrived(c, s, m));
  }

  lemma ArrivedPreserves(c: Config, P: State -> bool, s: State, m: Inbound)
    requires Invariant(c, P) && P(s) && c.hasChannel && BufRef(m.payload.id) in s.w.inHand
    ensures P(Arrived(c, s, m))
  {
    hide Invariant; hide HandOver; hide AcquireEnvelope;
    StepHold(c, P, s, Handing(BufRef(m.payload.id)));
    var s1 := s.(w := HandOver(s.w, BufRef(m.payload.id)));
    EnvelopeHeld(s1.w);
    if c.pooled {
      StepHold(c, P, s1, MakeEnvelope);
      StepNote(c, P, s1.(w := AcquireEnvelope(s1.w).0), Announcing(m, Some(AcquireEnvelope(s1.w).1)));
    } else {
      StepNote(c, P, s1, Announcing(m, None));
    }
  }

  lemma EnvelopeHeld(w: World)
    ensures EnvelopeRef(AcquireEnvelope(w).1) in AcquireEnvelope(w).0.held
  {
  }

  lemma {:induction false} DispatchPreserves(c: Config, P: State -> bool, s: State, ms: seq<Inbound>, any: bool)
    requires Invariant(c, P) && P(s) && c.hasChannel && Refs(ms) <= s.w.inHand
    ensures P(Dispatch(c, s, ms, any).0)
    decreases Work(s), |s.w.script|, 3, |ms|
  {
    hide Invariant; hide FireChannelRead; hide DiscardAll; hide Bufs; hide Payloads;
    if ms != [] {
      if s.closed {
        StepHold(c, P, s, DiscardMany(Payloads(ms)));
      } else {
        RefsSplit(ms);
        CoreOf(c, P, s);
        FireChannelReadPreserves(c, P, s, ms[0]);
        FireChannelReadFramed(c, s, ms[0]);
        FireChannelReadHand(c, s, ms[0]);
        DispatchPreserves(c, P, FireChannelRead(c, s, ms[0]), ms[1..], true);
      }
    }
  }

  lemma FireChannelReadHand(c: Config, s: State, m: Inbound)
    requires c.hasChannel && Framed(c, Given(s, Refs([m]), [m]), FireChannelRead(c, s, m))
    ensures FireChannelRead(c, s, m).w.inHand == s.w.inHand - Refs([m])
  {
    hide FireChannelRead; hide Refs;
  }

  lemma ReadingPreserves(c: Config, P: State -> bool, s: State, on: bool)
    requires Invariant(c, P) && P(s)
    ensures P(SetReading(s, on))
  {
    hide Invariant;
    StepNote(c, P, s, Reading(on));
  }

  /** One batch of a read. */
  lemma {:induction false} BatchPreserves(c: Config, P: State -> bool, s: State, remaining: int, any: bool)
    requires Invariant(c, P) && P(s) && c.hasChannel
    ensures var got := ReceiveInbound(c.linux, s.w, c.readBufferSize, remaining);
            P(SetReading(Dispatch(c, SetReading(s.(w := got.w), true), got.messages, any).0, false))
    decreases Work(s), |s.w.script|, 8
  {
    hide Invariant; hide Dispatch; hide ReceiveInbound; hide Refs; hide SetReading;
    var got := ReceiveInbound(c.linux, s.w, c.readBufferSize, remaining);
    ReceivePreserves(c, P, s, c.readBufferSize, remaining);
    ReceiveHand(c.linux, s.w, c.readBufferSize, remaining);
    var s0 := SetReading(s.(w := got.w), true);
    SetReadingFields(s.(w := got.w), true);
    ReadingPreserves(c, P, s.(w := got.w), true);
    DispatchPreserves(c, P, s0, got.messages, any);
    ReadingPreserves(c, P, Dispatch(c, s0, got.messages, any).0, false);
  }

  lemma {:induction false} ReadLoopPreserves(c: Config, P: State -> bool, s: State, remaining: int, any: bool)
    requires Invariant(c, P) && P(s) && c.hasChannel && !s.log.reading
    ensures P(ReadLoop(c, s, remaining, any).0)
    decreases Work(s), |s.w.script|, 9, if remaining > 0 then remaining else 0
  {
    hide Invariant; hide Dispatch; hide Fire; hide ReceiveInbound; hide Close; hide SetReading;
    if remaining > 0 && !s.closed {
      var got := ReceiveInbound(c.linux, s.w, c.readBufferSize, remaining);
      BatchPreserves(c, P, s, remaining, any);
      var s0 := SetReading(s.(w := got.w), true);
      var (s1, any1) := Dispatch(c, s0, got.messages, any);
      SetReadingFields(s.(w := got.w), true);
      SetReadingFields(s1, false);
      var s2 := SetReading(s1, false);
      if got.error.Some? {
        FirePreserves(c, P, s2, Exception(got.error.value));
        ClosePreserves(c, P, Fire(c, s2, Exception(got.error.value)));
      } else if !got.drained && got.messages != [] {
        ReadLoopPreserves(c, P, s2, remaining - |got.messages|, any1);
      }
    }
  }

  lemma {:induction false} ReadReadyPreserves(c: Config, P: State -> bool, s: State)
    requires Invariant(c, P) && P(s) && !s.closed && !s.log.reading
    ensures P(ReadReady(c, s))
    decreases Work(s), |s.w.script|, 10
  {
    hide Invariant; hide ReadLoop; hide Fire;
    if c.hasAllocator && c.hasChannel {
      var n := if c.maxMessages <= 0 then 1 else c.maxMessages;
      ReadLoopPreserves(c, P, s, n, false);
      var (s1, any, failed) := ReadLoop(c, s, n, false);
      if any && !failed { FirePreserves(c, P, s1, ReadComplete); }
    }
  }

  // ---- events ----

  lemma FailPreserves(c: Config, P: State -> bool, s: State, e: Error)
    requires Invariant(c, P) && P(s)
    ensures P(Close(c, Fire(c, s, Exception(e))).s)
  {
    hide Invariant; hide Fire; hide Close;
    FirePreserves(c, P, s, Exception(e));
    ClosePreserves(c, P, Fire(c, s, Exception(e)));
  }

  lemma ReturnedHand(s: State)
    ensures s.w.pendingWrites != [] ==>
              BufRef(s.w.pendingWrites[0].payload.id) in WriteReturned(s).w.inHand
              && WriteReturned(s).closed == s.closed
    ensures s.w.pendingReads != [] ==>
              BufRef(s.w.pendingReads[0]) in ReadReturned(s).w.inHand && ReadReturned(s).closed == s.closed
  {
  }

  /** The poller gives back a buffer, and it is released. */
  lemma WriteReturnPreserves(c: Config, P: State -> bool, s: State)
    requires Invariant(c, P) && P(s) && s.w.pendingWrites != []
    ensures P(LoseRef(WriteReturned(s), s.w.pendingWrites[0].payload.id))
  {
    hide Invariant; hide WriteReturned; hide Discard;
    UseInvariant(c, P);
    Step(c, P, ReturnWrite, s);
    ReturnedHand(s);
    StepHold(c, P, WriteReturned(s), DiscardOne(s.w.pendingWrites[0].payload.id));
  }

  lemma {:induction false} WriteSuccessPreserves(c: Config, P: State -> bool, s: State)
    requires Invariant(c, P) && P(s) && s.w.pendingWrites != [] && !s.closed && c.mode == Completion
    ensures P(Dequeue(c, LoseRef(WriteReturned(s), s.w.pendingWrites[0].payload.id)))
  {
    hide Invariant; hide UpdateWritability; hide Popped; hide Settled; hide WriteReturned; hide LoseRef;
    CoreOf(c, P, s);
    UseInvariant(c, P);
    Step(c, P, CompleteWrite, s);
    var s2 := LoseRef(WriteReturned(s), s.w.pendingWrites[0].payload.id);
    ReturnedQueue(s);
    UpdatePreserves(c, P, Popped(s2));
  }

  lemma ReturnedQueue(s: State)
    requires s.w.pendingWrites != []
    ensures LoseRef(WriteReturned(s), s.w.pendingWrites[0].payload.id).queue == s.queue
  {
  }

  lemma WriteCompletionPreserves(c: Config, P: State -> bool, s: State, error: Option<Error>)
    requires Invariant(c, P) && P(s) && s.w.pendingWrites != [] && c.mode == Completion
    ensures P(HandleWriteCompletion(c, s, error))
  {
    hide Invariant; hide Fire; hide Close; hide Dequeue; hide SubmitWrite; hide WriteReturned; hide LoseRef;
    var s2 := LoseRef(WriteReturned(s), s.w.pendingWrites[0].payload.id);
    WriteReturnPreserves(c, P, s);
    if !s.closed {
      if error.Some? { FailPreserves(c, P, s2, error.value); } else {
        WriteSuccessPreserves(c, P, s);
        var s3 := Dequeue(c, s2);
        SubmitWritePreserves(c, P, s3);
        var o := SubmitWrite(c, s3);
        if o.error.Some? { FailPreserves(c, P, o.s, o.error.value); }
        FirePreserves(c, P, s3, FlushComplete);
      }
    }
  }

  lemma ReadCompletionPreserves(c: Config, P: State -> bool, s: State, data: seq<Byte>, from: SocketAddress, error: Option<Error>)
    requires Invariant(c, P) && P(s) && s.w.pendingReads != [] && c.mode == Completion && c.hasChannel
    ensures P(HandleReadCompletion(c, s, data, from, error))
  {
    hide Invariant; hide Fire; hide Close; hide FireChannelRead; hide SubmitRead; hide ReadReturned; hide Discard;
    UseInvariant(c, P);
    Step(c, P, ReturnRead, s);
    ReturnedHand(s);
    var s1 := ReadReturned(s);
    var id := s.w.pendingReads[0];
    StepHold(c, P, s1, DiscardOne(id));
    if !s.closed {
      if error.Some? { FailPreserves(c, P, LoseRef(s1, id), error.value); } else {
        var m := Inbound(Buf(id, data), from);
        FireChannelReadPreserves(c, P, s1, m);
        FirePreserves(c, P, FireChannelRead(c, s1, m), ReadComplete);
        var s2 := if |data| > 0 && from.Valid() then Fire(c, FireChannelRead(c, s1, m), ReadComplete) else LoseRef(s1, id);
        if !s2.closed && s2.w.autoRead {
          SubmitReadPreserves(c, P, s2);
          var o := SubmitRead(c, s2);
          if o.error.Some? { FailPreserves(c, P, o.s, o.error.value); }
        }
      }
    }
  }
}
