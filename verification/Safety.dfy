/**
 * What a method of the endpoint needs and keeps, as a predicate on states, with a lemma for every step a method takes.
 * `Safe` says that no reference is given up that is not there, whatever handlers do next.
 */
module Safety {
  import opened Wrappers
  import opened Addresses
  import opened World
  import opened EndpointState
  import opened EndpointSpec
  import opened Receiving
  import opened Frames
  import opened Preservation
  import opened Runs
  import opened References

  ghost predicate Safe(c: Config, s: State) { Keeps(c)(s) }

  lemma SafeFacts(c: Config, s: State)
    requires Safe(c, s)
    ensures Core(c, s) && Conserved(s) && Sound(s) && (!s.closed ==> Whole(c, s))
    ensures s.w.held <= s.w.refs && s.w.inHand <= s.w.refs
  {
    hide QueueRefs; hide Outstanding; hide Distinct;
  }

  lemma SafeInitial(c: Config)
    ensures Safe(c, Initial())
  {
    InitialConserved();
  }

  lemma SafeAtom(c: Config, s: State, a: Atom)
    requires Safe(c, s) && Enabled(c, a, s)
    ensures Safe(c, Apply(c, a, s))
  {
    hide Keeps; hide Invariant; hide Enabled; hide Apply;
    ConservedInvariant(c);
    UseInvariant(c, Keeps(c));
    Preservation.Step(c, Keeps(c), a, s);
  }

  lemma SafeAppend(c: Config, s: State, d: Datagram)
    requires Safe(c, s) && !s.closed && multiset(Owned(d)) <= s.w.held
    ensures Safe(c, Settled(c, Appended(s, d)))
  {
    hide Safe;
    SafeAtom(c, s, Append(d));
  }

  lemma SafePop(c: Config, s: State)
    requires Safe(c, s) && s.queue != []
    requires s.closed || (c.mode != Completion && s.log.depth > 0 && (s.log.inFlight > 0 || s.log.resent))
    ensures Safe(c, Settled(c, Popped(s)))
  {
    hide Safe;
    SafeAtom(c, s, Pop);
  }

  lemma SafeNote(c: Config, s: State, m: Mark)
    requires Safe(c, s) && Markable(c, m, s)
    ensures Safe(c, Marked(c, m, s))
  {
    hide Safe;
    SafeAtom(c, s, Note(m));
  }

  lemma SafeTell(c: Config, s: State, e: Event)
    requires Safe(c, s) && Tellable(e)
    ensures Safe(c, Emit(s, e))
  {
    hide Safe;
    SafeNote(c, s, Tell(e));
  }

  lemma SafeHold(c: Config, s: State, h: Holding)
    requires Safe(c, s) && Movable(h, s.w)
    ensures Safe(c, s.(w := Move(h, s.w)))
  {
    hide Safe;
    SafeAtom(c, s, Hold(h));
  }

  lemma SafeOutside(c: Config, s: State, w: World)
    requires Safe(c, s) && SameHoldings(w, s.w)
    ensures Safe(c, s.(w := w))
  {
    hide Safe;
    SafeHold(c, s, Outside(w));
  }

  lemma SafeHandle(c: Config, s: State, action: Reaction)
    requires Safe(c, s)
    ensures Safe(c, s.(w := Handle(s.w, action)))
  {
    hide Keeps; hide Invariant;
    ConservedInvariant(c);
    HandlePreserves(c, Keeps(c), s, action);
  }

  lemma SafeClose(c: Config, s: State)
    requires Safe(c, s) && !s.closed
    ensures Safe(c, Settled(c, s.(closed := true)))
  {
    hide Safe;
    SafeAtom(c, s, BeginClose);
  }

  lemma SafeCloseResources(c: Config, s: State)
    requires Safe(c, s) && s.closed && s.queue == [] && s.spare == 0 && Unclosed(s)
    ensures Safe(c, CloseResources(c, s))
  {
    hide Keeps; hide Invariant;
    ConservedInvariant(c);
    CloseResourcesPreserves(c, Keeps(c), s);
  }

  lemma SafeStart(c: Config, s: State)
    requires Safe(c, s) && c.mode != Completion
    ensures var r := StartLoop(s);
            && Safe(c, r) && r.log.depth > 0 && r.log.inFlight == s.log.inFlight && (Whole(c, s) ==> Whole(c, r))
            && (!r.closed && !r.log.nested && !r.log.partial ==> r.log.inFlight == 0)
    ensures var r := StartLoop(s); r == s.(log := r.log) && r.log.reading == s.log.reading
  {
    hide Keeps; hide Invariant; hide Conserved;
    ConservedInvariant(c);
    StartPreserves(c, Keeps(c), s);
    SafeFacts(c, s);
    StartReady(c, s);
    if Whole(c, s) { StartWhole(c, s); }
  }

  /** The end of a send loop that began in `s0` and has reached `s1`. */
  lemma SafeEnding(c: Config, s0: State, s1: State, end: LoopEnd)
    requires Safe(c, s1) && c.mode != Completion && Whole(c, s0) && s0.log.depth > 0
    requires (s1, end) == FlushLoop(c, MAX_WRITE_BATCH, s0)
    requires !s0.closed && !s0.log.nested && !s0.log.partial ==> s0.log.inFlight == 0
    ensures end.SendFailed? ==> Safe(c, EndLoop(s1))
    ensures end == Blocked ==> Safe(c, EndLoop(EnableWriteInterest(c, s1).s))
    ensures end == Drained ==> Safe(c, EndLoop(DisableWriteInterest(c, s1).s))
    ensures s1.log.depth > 0 && Monotone(s0, s1)
  {
    hide Keeps; hide Invariant; hide Base; hide EnableWriteInterest; hide DisableWriteInterest; hide FlushLoop; hide Fire;
    hide EndLoop; hide Whole;
    ConservedInvariant(c);
    FlushLoopFramed(c, MAX_WRITE_BATCH, s0);
    MonotoneBase(c, s0, s1);
    FlushEnding(c, Keeps(c), s0, s1, end);
  }

  lemma SafeBatch(c: Config, s: State, r: SendResult)
    requires Safe(c, s) && !s.closed && c.mode != Completion && r == FirstSend(c, s) && s.log.depth > 0
    requires r.error.Some? && r.taken > 0 ==> !c.linux
    requires !s.log.nested && !s.log.partial ==> s.log.inFlight == 0
    ensures Safe(c, Batched(s, r))
  {
    hide Safe;
    SafeAtom(c, s, Batch(r));
  }

  /** Before each dequeue of the inner loop of a flush. */
  lemma SafeDequeue(c: Config, s: State, n: nat)
    requires Safe(c, s) && c.mode != Completion && n > 0
    requires s.closed || (s.log.depth > 0 && (s.log.resent || n <= s.log.inFlight))
    ensures Conserved(s) && Safe(c, if s.queue == [] then s else Settled(c, Popped(s)))
    ensures var r := Dequeue(c, s);
            r.closed || (r.log.depth > 0 && (r.log.resent || n - 1 <= r.log.inFlight))
  {
    hide Safe; hide Dequeue; hide Settled; hide Popped; hide Conserved;
    SafeFacts(c, s);
    if s.queue == [] { DequeueEmpty(c, s); } else {
      SafePop(c, s);
      if s.closed { DequeueClosed(c, s); } else {
        DequeueSent(c, s);
        DequeueBase(c, s);
        MonotoneBase(c, s, Dequeue(c, s));
      }
    }
  }

  /** What one round of the outer loop of a flush finds and leaves. */
  lemma SafeFlushStep(c: Config, s: State)
    requires Safe(c, s) && c.mode != Completion && s.queue != [] && s.log.depth > 0 && Whole(c, s)
    requires !s.closed && !s.log.nested && !s.log.partial ==> s.log.inFlight == 0
    ensures var batch := s.queue[..Min(MAX_WRITE_BATCH, |s.queue|)];
            var r := SendBatch(c.linux, c.ifaces, batch, s.w.sends);
            var s1 := Batched(s, r);
            && Safe(c, s1) && Work(s1) == Work(s) && s1.w.script == s.w.script && s1.log.depth > 0
            && (r.error.None? ==> s1.log.resent || r.sent <= s1.log.inFlight)
            && (r.error.None? && !r.again && r.sent == |batch| ==>
                  var s2 := DequeueN(c, s1, r.sent);
                  && Whole(c, s2) && s2.log.depth > 0 && Work(s2) < Work(s)
                  && (!s2.closed && !s2.log.nested && !s2.log.partial ==> s2.log.inFlight == 0))
  {
    hide Safe; hide DequeueN; hide SendBatch; hide Base; hide Batched;
    var batch := s.queue[..Min(MAX_WRITE_BATCH, |s.queue|)];
    var r := SendBatch(c.linux, c.ifaces, batch, s.w.sends);
    assert r == FirstSend(c, s);
    WholeOpen(c, s);
    SafeBatch(c, s, r);
    BatchedFields(s, r);
    var s1 := Batched(s, r);
    if r.error.None? && !r.again && r.sent == |batch| {
      BatchedBase(c, s, r);
      BaseWhole(c, s, s1);
      DequeueNFramed(c, s1, r.sent);
      var s2 := DequeueN(c, s1, r.sent);
      BaseWhole(c, s1, s2);
      MonotoneBase(c, s1, s2);
    }
  }

  lemma WholeOpen(c: Config, s: State)
    requires Whole(c, s) && s.queue != []
    ensures !s.closed
  {
  }

  lemma SafeReading(c: Config, s: State, on: bool)
    requires Safe(c, s)
    ensures Safe(c, SetReading(s, on))
    ensures var r := SetReading(s, on); r == s.(log := r.log) && r.log.reading == on
  {
    hide Safe;
    SafeNote(c, s, Reading(on));
  }

  lemma SafeReceive(c: Config, s: State, size: nat, limit: int)
    requires Safe(c, s)
    ensures var got := ReceiveInbound(c.linux, s.w, size, limit);
            Safe(c, s.(w := got.w)) && Refs(got.messages) <= got.w.inHand
  {
    hide Keeps; hide Invariant; hide ReceiveInbound;
    ConservedInvariant(c);
    ReceivePreserves(c, Keeps(c), s, size, limit);
    ReceiveHand(c.linux, s.w, size, limit);
  }

  lemma SafeDiscard(c: Config, s: State, ms: seq<Inbound>)
    requires Safe(c, s) && Refs(ms) <= s.w.inHand
    ensures Safe(c, s.(w := DiscardAll(s.w, Payloads(ms))))
  {
    hide Safe; hide DiscardAll; hide Bufs; hide Payloads;
    SafeHold(c, s, DiscardMany(Payloads(ms)));
  }

  /** Before each message of a batch is handed on, or the rest of the batch released. */
  lemma SafeDispatch(c: Config, s: State, ms: seq<Inbound>)
    requires Safe(c, s) && c.hasChannel && ms != [] && Refs(ms) <= s.w.inHand
    ensures s.w.inHand <= s.w.refs && BufRef(ms[0].payload.id) in s.w.inHand
    ensures Safe(c, s.(w := DiscardAll(s.w, Payloads(ms))))
    ensures !s.closed ==> Refs(ms[1..]) <= FireChannelRead(c, s, ms[0]).w.inHand
  {
    hide Safe; hide DiscardAll; hide Payloads; hide FireChannelRead; hide Core; hide Conserved; hide Refs; hide Framed;
    SafeFacts(c, s);
    SafeDiscard(c, s, ms);
    RefsSplit(ms);
    if !s.closed {
      FireChannelReadFramed(c, s, ms[0]);
      FireChannelReadHand(c, s, ms[0]);
    }
  }

  lemma SafeSubmitWrite(c: Config, s: State)
    requires Safe(c, s) && c.mode == Completion
    ensures Safe(c, SubmitWrite(c, s).s)
  {
    hide Keeps; hide Invariant; hide SubmitWrite;
    ConservedInvariant(c);
    SubmitWritePreserves(c, Keeps(c), s);
  }

  lemma SafeSubmitRead(c: Config, s: State)
    requires Safe(c, s) && c.mode == Completion && !s.closed
    ensures Safe(c, SubmitRead(c, s).s)
  {
    hide Keeps; hide Invariant; hide SubmitRead;
    ConservedInvariant(c);
    SubmitReadPreserves(c, Keeps(c), s);
  }

  /** A write comes back, and its buffer is released. */
  lemma SafeWriteReturn(c: Config, s: State)
    requires Safe(c, s) && s.w.pendingWrites != []
    ensures Safe(c, LoseRef(WriteReturned(s), s.w.pendingWrites[0].payload.id))
  {
    hide Keeps; hide Invariant; hide WriteReturned; hide LoseRef;
    ConservedInvariant(c);
    WriteReturnPreserves(c, Keeps(c), s);
  }

  /** The buffer of a write that comes back may be released. */
  lemma SafeReturn(c: Config, s: State)
    requires Safe(c, s) && s.w.pendingWrites != []
    ensures var id := s.w.pendingWrites[0].payload.id;
            var r := WriteReturned(s);
            && Conserved(LoseRef(r, id)) && BufRef(id) in r.w.inHand && r.w.inHand <= r.w.refs
            && r.log.reading == s.log.reading
  {
    hide Safe; hide Balanced; hide Distinct; hide Discard; hide QueueRefs;
    SafeFacts(c, s);
    WriteReturnedConserved(s);
    ReturnedHand(s);
    HeldConserved(WriteReturned(s), DiscardOne(s.w.pendingWrites[0].payload.id));
    HandReferenced(WriteReturned(s));
  }

  lemma HandReferenced(s: State)
    requires Conserved(s)
    ensures s.w.inHand <= s.w.refs
  {
    hide QueueRefs; hide Outstanding; hide Distinct;
  }

  /** A completed write and the departure of its entry are one step. */
  lemma SafeComplete(c: Config, s: State)
    requires Safe(c, s) && s.w.pendingWrites != [] && !s.closed && c.mode == Completion
    ensures var r := LoseRef(WriteReturned(s), s.w.pendingWrites[0].payload.id);
            r.queue != [] && Safe(c, Settled(c, Popped(r)))
  {
    hide Safe; hide Popped; hide Settled; hide Conserved; hide WriteReturned; hide LoseRef;
    SafeFacts(c, s);
    SafeAtom(c, s, CompleteWrite);
    ReturnedQueue(s);
  }

  lemma SafeReadReturned(c: Config, s: State)
    requires Safe(c, s) && s.w.pendingReads != []
    ensures var r := ReadReturned(s);
            && Safe(c, r) && Safe(c, LoseRef(r, s.w.pendingReads[0]))
            && BufRef(s.w.pendingReads[0]) in r.w.inHand && r.w.inHand <= r.w.refs
  {
    hide Safe; hide ReadReturned; hide Discard; hide Core; hide Conserved;
    SafeAtom(c, s, ReturnRead);
    ReturnedHand(s);
    SafeFacts(c, ReadReturned(s));
    SafeHold(c, ReadReturned(s), DiscardOne(s.w.pendingReads[0]));
  }

  lemma SafeReadReady(c: Config, s: State)
    requires Safe(c, s) && !s.closed && c.mode != Completion
    ensures Safe(c, ReadReady(c, s)) && Whole(c, ReadReady(c, s)) && Whole(c, s)
  {
    hide Keeps; hide Invariant; hide ReadReady;
    ConservedInvariant(c);
    ReadPartPreserves(c, Keeps(c), s);
  }

  lemma QueueOwned(s: State)
    requires Conserved(s) && s.queue != []
    ensures multiset(Owned(s.queue[0])) <= s.w.refs
  {
    hide Owned; hide Outstanding;
    QueueRefsMember(s.queue, 0);
  }

  lemma OwnsMeans(w: World, m: Message)
    ensures Owns(w, m) <==> multiset(MessageOwned(m)) <= w.held
  {
  }
}
