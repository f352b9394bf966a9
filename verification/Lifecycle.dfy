/** Closing, write interest and outstanding operations over whole runs. */
module Lifecycle {
  import opened Wrappers
  import opened Addresses
  import opened World
  import opened EndpointState
  import opened EndpointSpec
  import opened Receiving
  import opened Frames
  import opened Preservation
  import opened Runs
  import opened Resting
  import opened History
  import opened Accounting
  import opened References

  // ---- closing ----

  function Inactives(events: seq<Event>): nat
    decreases |events|
  {
    if events == [] then 0
    else (if events[|events| - 1].Inactive? then 1 else 0) + Inactives(events[..|events| - 1])
  }

  lemma InactivesAppend(events: seq<Event>, e: Event)
    ensures Inactives(events + [e]) == Inactives(events) + (if e.Inactive? then 1 else 0)
  {
    assert (events + [e])[..|events|] == events;
  }

  ghost predicate ToldInactive(c: Config, s: State) {
    Inactives(s.log.events) == if s.inactiveFired && c.hasChannel then 1 else 0
  }

  lemma SettledTold(c: Config, s: State)
    requires ToldInactive(c, s)
    ensures ToldInactive(c, Settled(c, s))
  {
    hide Inactives;
    InactivesAppend(s.log.events, WritabilityChanged(true));
    InactivesAppend(s.log.events, WritabilityChanged(false));
  }

  lemma MarkedTold(c: Config, s: State, m: Mark)
    requires ToldInactive(c, s) && Markable(c, m, s)
    ensures ToldInactive(c, Marked(c, m, s))
  {
    hide ToldInactive; hide MarkedInactive; hide Emit;
    match m
    case MarkInactive => InactiveTold(c, s);
    case Tell(e) => EmitTold(c, s, e);
    case Announcing(m, envelope) =>
      SameTold(c, s, Dispatched(s, m));
      EmitTold(c, Dispatched(s, m), ChannelRead(m.payload, FromSocketAddress(m.from), envelope));
    case _ => SameTold(c, s, Marked(c, m, s));
  }

  lemma InactiveTold(c: Config, s: State)
    requires ToldInactive(c, s) && !s.inactiveFired
    ensures ToldInactive(c, MarkedInactive(c, s))
  {
    hide Inactives;
    InactivesAppend(s.log.events, Inactive);
  }

  lemma EmitTold(c: Config, s: State, e: Event)
    requires ToldInactive(c, s) && !e.Inactive?
    ensures ToldInactive(c, Emit(s, e))
  {
    hide Inactives;
    InactivesAppend(s.log.events, e);
  }

  lemma SameTold(c: Config, s: State, r: State)
    requires ToldInactive(c, s) && r.log.events == s.log.events && r.inactiveFired == s.inactiveFired
    ensures ToldInactive(c, r)
  {
  }

  lemma ToldStep(c: Config, a: Atom, s: State)
    requires Enabled(c, a, s) && ToldInactive(c, s)
    ensures ToldInactive(c, Apply(c, a, s))
  {
    hide Settled; hide Move; hide Movable; hide Markable; hide Marked; hide ToldInactive; hide Owned; hide ReleaseAll;
    hide Interested; hide Batched;
    match a
    case Append(d) => SameTold(c, s, Appended(s, d)); SettledTold(c, Appended(s, d));
    case Pop => SameTold(c, s, Popped(s)); SettledTold(c, Popped(s));
    case CompleteWrite => SameTold(c, s, WriteCompleted(s)); SettledTold(c, WriteCompleted(s));
    case BeginClose => SameTold(c, s, s.(closed := true)); SettledTold(c, s.(closed := true));
    case Note(m) => MarkedTold(c, s, m);
    case _ => QuietTold(c, a, s);
  }

  lemma QuietTold(c: Config, a: Atom, s: State)
    requires Enabled(c, a, s) && ToldInactive(c, s)
    requires !a.Append? && !a.Pop? && !a.CompleteWrite? && !a.BeginClose? && !a.Note?
    ensures ToldInactive(c, Apply(c, a, s))
  {
    hide Move; hide Movable; hide ToldInactive; hide SkipAnswer; hide NextAnswer;
    SameTold(c, s, Apply(c, a, s));
  }

  lemma ToldInvariant(c: Config)
    ensures Invariant(c, s => Core(c, s) && ToldInactive(c, s))
  {
    hide Core; hide ToldInactive; hide Apply; hide Enabled;
    forall a: Atom, s: State | Enabled(c, a, s) && Core(c, s) && ToldInactive(c, s)
      ensures Core(c, Apply(c, a, s)) && ToldInactive(c, Apply(c, a, s))
    {
      CoreStep(c, a, s);
      ToldStep(c, a, s);
    }
  }

  /**
   * Close is complete and happens once: between calls a closed endpoint has closed its descriptor and its
   * allocator once, told the pipeline so once, holds no datagram, no byte and no entry, and owns no reference;
   * an open one has done none of it.
   */
  lemma CloseIsComplete(c: Config, steps: seq<Step>)
    ensures var s := Run(c, Initial(), steps);
            && s.log.fdCloses == (if s.closed then 1 else 0)
            && s.log.allocatorCloses == (if s.closed && c.hasAllocator then 1 else 0)
            && Inactives(s.log.events) == (if s.closed && c.hasChannel then 1 else 0)
            && (s.closed ==> s.queue == [] && s.bytes == 0 && s.spare == 0 && !s.writable
                             && s.w.refs == s.w.held + Outstanding(s.w))
  {
    hide Run; hide Inactives; hide Outstanding; hide Invariant;
    RunAtRest(c, steps);
    RunCounted(c, steps);
    RunConserved(c, steps);
    ToldInvariant(c);
    assert Core(c, Initial());
    assert ToldInactive(c, Initial()) by { NoInactives(); }
    RunPreserves(c, s => Core(c, s) && ToldInactive(c, s), Initial(), steps);
  }

  /**
   * One Close, whatever handlers do meanwhile: the pipeline hears of a raised flag falling and then of the end, the
   * queue is released in order, and nothing is queued, sent or handed on. Only an error of the descriptor or the
   * allocator is reported, and a second Close does nothing.
   */
  lemma CloseExact(c: Config, s: State)
    requires Sound(s)
    ensures s.closed ==> Close(c, s) == Outcome(s, None)
    ensures var o := Close(c, s);
            !s.closed ==>
              && o.s.closed && o.s.log.gone == s.log.gone + s.queue
              && o.s.log.events == s.log.events + (if c.hasChannel && s.writable then [WritabilityChanged(false)] else [])
                                                + (if c.hasChannel then [Inactive] else [])
              && o.s.log.accepted == s.log.accepted && o.s.log.sent == s.log.sent && o.s.log.dispatched == s.log.dispatched
              && (o.error.Some? <==> c.closeFails || (c.hasAllocator && c.allocatorCloseFails))
  {
    hide CloseWritability; hide ReleaseOutbound; hide FireInactiveOnce; hide Toggle;
    if !s.closed {
      var s0 := s.(closed := true);
      var s1 := CloseWritability(c, s0);
      CloseWritabilityFramed(c, s0);
      LoweredFields(c, s0);
      ReleasedLog(c, s1);
      var s2 := CloseResources(c, ReleaseOutbound(c, s1));
      FireInactiveFramed(c, s2);
    }
  }

  /** A closed endpoint refuses every call with the same error, keeps nothing of a message, and does nothing else. */
  lemma ClosedCalls(c: Config, s: State)
    requires s.closed
    ensures Flush(c, s) == Read(c, s) == Outcome(s, Some(ErrServerClosed)) && Close(c, s) == Outcome(s, None)
  {
  }

  lemma LoweredFields(c: Config, s: State)
    ensures var r := Toggle(c, s, false);
            && r.closed == s.closed && r.queue == s.queue && !r.writable && r.inactiveFired == s.inactiveFired
            && r.log.events == s.log.events + (if c.hasChannel then [WritabilityChanged(false)] else [])
            && r.log.gone == s.log.gone && r.log.accepted == s.log.accepted && r.log.sent == s.log.sent
            && r.log.dispatched == s.log.dispatched
  {
  }

  lemma {:induction false} ReleasedLog(c: Config, s: State)
    requires s.closed && !s.writable
    ensures var r := ReleaseOutbound(c, s);
            && r.closed && r.inactiveFired == s.inactiveFired && r.log.gone == s.log.gone + s.queue
            && r.log.events == s.log.events && r.log.accepted == s.log.accepted && r.log.sent == s.log.sent
            && r.log.dispatched == s.log.dispatched
    decreases |s.queue|
  {
    hide Popped; hide UpdateWritability;
    if s.queue != [] {
      PoppedLog(s);
      UpdateClosed(c, Popped(s));
      ReleasedLog(c, Popped(s));
      assert s.queue == [s.queue[0]] + s.queue[1..];
    }
  }

  lemma PoppedLog(s: State)
    requires s.queue != []
    ensures var r := Popped(s);
            && r.closed == s.closed && r.writable == s.writable && r.queue == s.queue[1..]
            && r.inactiveFired == s.inactiveFired && r.log.gone == s.log.gone + [s.queue[0]]
            && r.log.events == s.log.events && r.log.accepted == s.log.accepted && r.log.sent == s.log.sent
            && r.log.dispatched == s.log.dispatched
  {
  }

  lemma NoInactives()
    ensures Inactives([]) == 0
  {
  }

  /** A closed endpoint stays as it is: nothing is queued, sent, dispatched or told any more. */
  lemma {:induction false} ClosedForever(c: Config, s: State, steps: seq<Step>)
    requires Shut(c, s)
    ensures var r := Run(c, s, steps);
            Shut(c, r) && r.log == s.log && r.bytes == s.bytes && |r.w.pendingWrites| <= |s.w.pendingWrites|
            && |r.w.pendingReads| <= |s.w.pendingReads|
    decreases |steps|
  {
    hide Next; hide Shut;
    if steps != [] {
      ClosedNext(c, s, steps[0]);
      ClosedForever(c, Next(c, s, steps[0]), steps[1..]);
    }
  }

  lemma ClosedNext(c: Config, s: State, step: Step)
    requires Shut(c, s)
    ensures var r := Next(c, s, step);
            Shut(c, r) && r.log == s.log && r.bytes == s.bytes && |r.w.pendingWrites| <= |s.w.pendingWrites|
            && |r.w.pendingReads| <= |s.w.pendingReads|
  {
    hide React; hide Close;
    match step
    case Call(action) => ReactFramed(c, s, action);
    case Provide(w) =>
    case Report(event) => if Deliverable(c, s, event) { ClosedEvent(c, s, event); }
  }

  lemma ClosedEvent(c: Config, s: State, ev: PollEvent)
    requires Shut(c, s) && Deliverable(c, s, ev)
    ensures var r := HandleEvent(c, s, ev);
            Shut(c, r) && r.log == s.log && r.bytes == s.bytes && |r.w.pendingWrites| <= |s.w.pendingWrites|
            && |r.w.pendingReads| <= |s.w.pendingReads|
  {
    hide Fire; hide Dequeue; hide SubmitWrite; hide SubmitRead; hide FireChannelRead; hide ReadReady; hide FlushOutbound;
  }

  /** A report that arrives after Close gives its buffer up, once, and does nothing else to reference counts. */
  lemma LateReport(c: Config, s: State, error: Option<Error>)
    requires Conserved(s) && s.closed && s.w.pendingWrites != []
    ensures var r := HandleWriteCompletion(c, s, error);
            var b := BufRef(s.w.pendingWrites[0].payload.id);
            && s.w.refs[b] > 0 && r.w.refs == s.w.refs - multiset{b}
            && r.w.held == s.w.held && r.w.inHand == s.w.inHand && r.w.pendingWrites == s.w.pendingWrites[1..]
  {
    hide Fire; hide Dequeue; hide SubmitWrite; hide QueueRefs;
    var b := BufRef(s.w.pendingWrites[0].payload.id);
    assert Bufs(WritePayloads(s.w.pendingWrites))[0] == b;
    assert b in Outstanding(s.w);
    assert s.w.inHand + multiset{b} - multiset{b} == s.w.inHand;
  }

  /** So does a late report about a read: its data go to nobody. */
  lemma LateReadReport(c: Config, s: State, data: seq<Byte>, from: SocketAddress, error: Option<Error>)
    requires Conserved(s) && s.closed && s.w.pendingReads != [] && c.hasChannel
    ensures var r := HandleReadCompletion(c, s, data, from, error);
            var b := BufRef(s.w.pendingReads[0]);
            && s.w.refs[b] > 0 && r.w.refs == s.w.refs - multiset{b}
            && r.w.held == s.w.held && r.w.inHand == s.w.inHand && r.w.pendingReads == s.w.pendingReads[1..]
            && r.log == s.log
  {
    hide Fire; hide FireChannelRead; hide SubmitRead; hide QueueRefs;
    var b := BufRef(s.w.pendingReads[0]);
    assert Bufs(s.w.pendingReads)[0] == b;
    assert b in Outstanding(s.w);
    assert s.w.inHand + multiset{b} - multiset{b} == s.w.inHand;
  }

  // ---- write interest ----

  ghost predicate Interests(c: Config, s: State) {
    && (c.mode != Readiness ==> !s.writeInterest)
    && (!s.closed && !s.log.nested && s.writeInterest ==> s.queue != [] || s.log.depth > 0)
    && ((s.w.mask == s.writeInterest) <==> !s.w.drift)
  }

  lemma InterestsStep(c: Config, a: Atom, s: State)
    requires Enabled(c, a, s) && Interests(c, s) && Core(c, s)
    ensures Interests(c, Apply(c, a, s))
  {
    hide Core; hide Settled; hide Movable; hide Move; hide Marked; hide Owned; hide Popped; hide Appended; hide WriteCompleted;
    hide Interested; hide Markable;
    match a
    case Append(d) => AppendedInterests(c, s, d); SettledInterests(c, Appended(s, d));
    case Pop => PoppedInterests(c, s); SettledInterests(c, Popped(s));
    case CompleteWrite => CompletedInterests(c, s); SettledInterests(c, WriteCompleted(s));
    case BeginClose => SettledInterests(c, s.(closed := true));
    case Note(m) => MarkedInterests(c, s, m);
    case Interest(on) => InterestedInterests(c, s, on);
    case _ =>
  }

  lemma SettledInterests(c: Config, s: State)
    requires Interests(c, s)
    ensures Interests(c, Settled(c, s))
  {
  }

  lemma AppendedInterests(c: Config, s: State, d: Datagram)
    requires Interests(c, s)
    ensures Interests(c, Appended(s, d))
  {
  }

  lemma PoppedInterests(c: Config, s: State)
    requires Interests(c, s) && s.queue != [] && (s.closed || s.log.depth > 0)
    ensures Interests(c, Popped(s))
  {
  }

  lemma CompletedInterests(c: Config, s: State)
    requires Interests(c, s) && c.mode == Completion && s.w.pendingWrites != [] && s.queue != []
    ensures Interests(c, WriteCompleted(s))
  {
    hide Envelopes; hide Owned;
  }

  lemma MarkedInterests(c: Config, s: State, m: Mark)
    requires Interests(c, s) && Markable(c, m, s)
    ensures Interests(c, Marked(c, m, s))
  {
  }

  lemma InterestedInterests(c: Config, s: State, on: bool)
    requires Interests(c, s) && c.mode == Readiness && s.writeInterest != on && s.log.depth > 0
    ensures Interests(c, Interested(s, on))
  {
  }

  lemma InterestsInvariant(c: Config)
    ensures Invariant(c, s => Core(c, s) && Interests(c, s))
  {
    hide Core; hide Interests; hide Apply; hide Enabled;
    forall a: Atom, s: State | Enabled(c, a, s) && Core(c, s) && Interests(c, s)
      ensures Core(c, Apply(c, a, s)) && Interests(c, Apply(c, a, s))
    {
      CoreStep(c, a, s);
      InterestsStep(c, a, s);
    }
  }

  /**
   * Between calls an open endpoint asks for write readiness only while datagrams wait (as long as no handler
   * flushed inside a send loop), and the poller agrees with the endpoint's flag exactly if an even number of
   * Modify calls has failed since the last that worked.
   */
  lemma InterestAgrees(c: Config, steps: seq<Step>)
    ensures var s := Run(c, Initial(), steps);
            && (!s.closed && !s.log.nested && s.writeInterest ==> s.queue != [])
            && ((s.w.mask == s.writeInterest) <==> !s.w.drift)
  {
    hide Run; hide Invariant;
    RunAtRest(c, steps);
    InterestsInvariant(c);
    assert Core(c, Initial()) && Interests(c, Initial());
    RunPreserves(c, s => Core(c, s) && Interests(c, s), Initial(), steps);
  }

  /** The state in which handlers are told that a flush has emptied the queue. */
  ghost function Emptied(c: Config, s: State): State {
    EndLoop(DisableWriteInterest(c, FlushLoop(c, MAX_WRITE_BATCH, StartLoop(s)).0).s)
  }

  /** The handlers told next do nothing. */
  predicate Silent(s: State) { s.w.script == [] || s.w.script[0] == Return }

  lemma SilentFire(c: Config, s: State, e: Event)
    requires Silent(s)
    ensures var r := Fire(c, s, e);
            && r.closed == s.closed && r.queue == s.queue && r.writeInterest == s.writeInterest
            && r.writePending == s.writePending && r.log.nested == s.log.nested
  {
    hide React; hide RunHandler;
    if c.hasChannel { SilentRun(c, Emit(s, e)); }
  }

  lemma SilentRun(c: Config, s: State)
    requires Silent(s)
    ensures RunHandler(c, s) == s || RunHandler(c, s) == s.(w := RunHandler(c, s).w)
  {
    hide React;
  }

  /**
   * With a poller, a flush that reports no error leaves the endpoint closed, or with datagrams waiting and write
   * readiness asked for, or it has emptied the queue, withdrawn its interest, and told the handlers so.
   */
  lemma FlushSettlesInterest(c: Config, s: State)
    requires Core(c, s) && !s.closed && c.mode == Readiness && FlushOutbound(c, s).error.None?
    ensures var r, t := FlushOutbound(c, s).s, Emptied(c, s);
            || r.closed || r.log.nested
            || (r.queue != [] && r.writeInterest)
            || (t.queue == [] && !t.writeInterest && r == Fire(c, t, FlushComplete)
                && (c.hasChannel ==> t.log.events + [FlushComplete] <= r.log.events))
  {
    hide Core; hide FlushLoop; hide Fire; hide Base; hide EnableWriteInterest; hide DisableWriteInterest; hide Whole; hide StartLoop;
    var s0 := StartLoop(s);
    OpenWhole(c, s);
    StartWhole(c, s);
    StartDepth(s);
    FlushLoopFramed(c, MAX_WRITE_BATCH, s0);
    var (s1, end) := FlushLoop(c, MAX_WRITE_BATCH, s0);
    match end
    case SendFailed(_) =>
    case Blocked =>
      EnabledFields(c, s1);
      EndFields(EnableWriteInterest(c, s1).s);
    case Drained =>
      DisabledFields(c, s1);
      EndFields(DisableWriteInterest(c, s1).s);
      EmptiedCore(c, s);
      FireGrows(c, Emptied(c, s), FlushComplete);
  }

  lemma OpenWhole(c: Config, s: State)
    requires Core(c, s) && !s.closed
    ensures Whole(c, s) && s.log.depth >= 0
  {
  }

  lemma EmptiedCore(c: Config, s: State)
    requires Core(c, s) && !s.closed && c.mode != Completion
    requires FlushLoop(c, MAX_WRITE_BATCH, StartLoop(s)).1 == Drained
    ensures Core(c, Emptied(c, s))
  {
    hide Core; hide FlushLoop; hide Fire; hide Base; hide DisableWriteInterest; hide Whole; hide Monotone; hide StartLoop;
    hide EndLoop; hide Invariant;
    CoreInvariant(c);
    var P := t => Core(c, t);
    var s0 := StartLoop(s);
    OpenWhole(c, s);
    StartPreserves(c, P, s);
    StartWhole(c, s);
    StartReady(c, s);
    FlushLoopPreserves(c, P, s0);
    FlushLoopFramed(c, MAX_WRITE_BATCH, s0);
    var s1 := FlushLoop(c, MAX_WRITE_BATCH, s0).0;
    MonotoneBase(c, s0, s1);
    FlushEnding(c, P, s0, s1, Drained);
  }

  /** If the handlers told of an empty queue do nothing, write interest stands exactly while datagrams remain. */
  lemma InterestExact(c: Config, s: State)
    requires Core(c, s) && !s.closed && c.mode == Readiness && FlushOutbound(c, s).error.None?
    requires Silent(Emptied(c, s))
    ensures var r := FlushOutbound(c, s).s; r.closed || r.log.nested || (r.queue != [] <==> r.writeInterest)
  {
    hide FlushOutbound; hide Fire; hide Core; hide Silent; hide Emptied;
    FlushSettlesInterest(c, s);
    SilentFire(c, Emptied(c, s), FlushComplete);
  }

  lemma StartDepth(s: State)
    ensures StartLoop(s).log.depth == s.log.depth + 1 && StartLoop(s).closed == s.closed
  {
  }

  lemma EndFields(s: State)
    ensures var r := EndLoop(s);
            r.closed == s.closed && r.queue == s.queue && r.writeInterest == s.writeInterest && r.log.nested == s.log.nested
  {
  }

  lemma EnabledFields(c: Config, s: State)
    requires c.mode == Readiness
    ensures var r := EnableWriteInterest(c, s).s;
            r.writeInterest && r.queue == s.queue && r.closed == s.closed && r.log == s.log
  {
  }

  lemma DisabledFields(c: Config, s: State)
    requires c.mode == Readiness
    ensures var r := DisableWriteInterest(c, s).s;
            !r.writeInterest && r.queue == s.queue && r.closed == s.closed && r.log == s.log
  {
  }

  // ---- outstanding operations ----

  /** At most one write and one read are outstanding; an open endpoint's write carries the head of its queue. */
  ghost predicate Single(c: Config, s: State) {
    && |s.w.pendingWrites| <= 1 && |s.w.pendingReads| <= 1
    && (!s.closed ==> |s.w.pendingReads| == (if s.readPending then 1 else 0))
    && (!s.closed && s.writePending ==>
          && s.queue != [] && |s.w.pendingWrites| == 1
          && s.w.pendingWrites[0].payload == s.queue[0].payload
          && ToSocketAddress(c.ifaces, s.queue[0].addr) == Success(s.w.pendingWrites[0].to))
  }

  lemma SameSingle(c: Config, s: State, r: State)
    requires Single(c, s) && r.closed == s.closed && r.queue == s.queue
    requires r.readPending == s.readPending && r.writePending == s.writePending
    requires r.w.pendingWrites == s.w.pendingWrites && r.w.pendingReads == s.w.pendingReads
    ensures Single(c, r)
  {
    hide ToSocketAddress;
  }

  /** What the core knows about writes. */
  lemma CoreWrites(c: Config, s: State)
    requires Core(c, s)
    ensures c.mode == Completion && !s.closed ==> |s.w.pendingWrites| == (if s.writePending then 1 else 0)
  {
  }

  lemma SettledSingle(c: Config, s: State)
    requires Single(c, s)
    ensures Single(c, Settled(c, s))
  {
    hide Single;
    assert Settled(c, s).readPending == s.readPending && Settled(c, s).writePending == s.writePending;
    SameSingle(c, s, Settled(c, s));
  }

  lemma AppendedSingle(c: Config, s: State, d: Datagram)
    requires Single(c, s)
    ensures Single(c, Appended(s, d))
  {
    hide ToSocketAddress; hide Owned;
  }

  lemma PoppedSingle(c: Config, s: State)
    requires Single(c, s) && s.queue != [] && (s.closed || !s.writePending)
    ensures Single(c, Popped(s))
  {
    hide ToSocketAddress; hide Owned; hide Envelopes;
  }

  lemma CompletedSingle(c: Config, s: State)
    requires Single(c, s) && s.queue != [] && s.w.pendingWrites != [] && !s.closed
    ensures Single(c, WriteCompleted(s))
  {
    hide ToSocketAddress; hide Owned; hide Envelopes;
  }

  lemma ClosedSingle(c: Config, s: State)
    requires Single(c, s)
    ensures Single(c, s.(closed := true))
  {
    hide ToSocketAddress;
  }

  lemma MarkedSingle(c: Config, s: State, m: Mark)
    requires Single(c, s)
    ensures Single(c, Marked(c, m, s))
  {
    hide Single; hide Marked;
    SameSingle(c, s, Marked(c, m, s));
  }

  lemma InterestedSingle(c: Config, s: State, on: bool)
    requires Single(c, s)
    ensures Single(c, Interested(s, on))
  {
    hide Single;
    SameSingle(c, s, Interested(s, on));
  }

  lemma OfferedSingle(c: Config, s: State, to: SocketAddress)
    requires Single(c, s) && s.queue != [] && s.w.pendingWrites == []
    requires ToSocketAddress(c.ifaces, s.queue[0].addr) == Success(to)
    ensures Single(c, WriteSubmitted(s, to))
  {
    hide ToSocketAddress;
  }

  lemma ReadOfferedSingle(c: Config, s: State, id: nat)
    requires Single(c, s) && !s.closed && !s.readPending
    ensures Single(c, ReadSubmitted(s, id))
  {
    hide ToSocketAddress;
  }

  lemma ReturnedSingle(c: Config, s: State)
    requires Single(c, s) && s.w.pendingWrites != []
    ensures Single(c, WriteReturned(s))
  {
    hide ToSocketAddress;
  }

  lemma ReadReturnedSingle(c: Config, s: State)
    requires Single(c, s) && s.w.pendingReads != []
    ensures Single(c, ReadReturned(s))
  {
    hide ToSocketAddress;
  }

  lemma SingleStep(c: Config, a: Atom, s: State)
    requires Enabled(c, a, s) && Single(c, s) && Core(c, s) && c.mode == Completion
    ensures Single(c, Apply(c, a, s))
  {
    hide Settled; hide Movable; hide Move; hide Marked; hide Owned; hide Popped; hide Appended; hide WriteCompleted;
    hide Interested; hide Markable; hide ToSocketAddress; hide Core; hide WriteSubmitted; hide Single; hide Batched;
    match a
    case Append(d) => AppendedSingle(c, s, d); SettledSingle(c, Appended(s, d));
    case Pop => CoreWrites(c, s); PoppedSingle(c, s); SettledSingle(c, Popped(s));
    case CompleteWrite => CoreWrites(c, s); CompletedSingle(c, s); SettledSingle(c, WriteCompleted(s));
    case BeginClose => ClosedSingle(c, s); SettledSingle(c, s.(closed := true));
    case Note(m) => MarkedSingle(c, s, m);
    case Interest(on) => InterestedSingle(c, s, on);
    case WriteOffered(to) => CoreWrites(c, s); OfferedSingle(c, s, to);
    case ReadOffered(id) => ReadOfferedSingle(c, s, id);
    case ReturnWrite => ReturnedSingle(c, s);
    case ReturnRead => ReadReturnedSingle(c, s);
    case Batch(_) =>
    case Hold(h) => SameSingle(c, s, s.(w := Move(h, s.w)));
  }

  lemma SingleInvariant(c: Config)
    requires c.mode == Completion
    ensures Invariant(c, s => Core(c, s) && Single(c, s))
  {
    hide Core; hide Single; hide Apply; hide Enabled;
    forall a: Atom, s: State | Enabled(c, a, s) && Core(c, s) && Single(c, s)
      ensures Core(c, Apply(c, a, s)) && Single(c, Apply(c, a, s))
    {
      CoreStep(c, a, s);
      SingleStep(c, a, s);
    }
  }

  /**
   * `writePending` of an open endpoint holds exactly while one write is outstanding, and that write carries the
   * head of the queue; `readPending` likewise; and never is more than one of either outstanding.
   */
  lemma OneOfEach(c: Config, steps: seq<Step>)
    requires c.mode == Completion
    ensures var s := Run(c, Initial(), steps);
            && |s.w.pendingWrites| <= 1 && |s.w.pendingReads| <= 1
            && (!s.closed ==>
                  && (s.writePending <==> |s.w.pendingWrites| == 1) && (s.readPending <==> |s.w.pendingReads| == 1)
                  && (s.writePending ==>
                        && s.queue != [] && s.w.pendingWrites[0].payload == s.queue[0].payload
                        && ToSocketAddress(c.ifaces, s.queue[0].addr) == Success(s.w.pendingWrites[0].to)))
  {
    hide Run; hide Invariant; hide ToSocketAddress;
    SingleInvariant(c);
    assert Core(c, Initial()) && Single(c, Initial());
    RunPreserves(c, s => Core(c, s) && Single(c, s), Initial(), steps);
    CoreWrites(c, Run(c, Initial(), steps));
  }

  /** A flush that reports no error leaves a completion endpoint closed, empty, or with a write outstanding. */
  lemma FlushMakesProgress(c: Config, s: State)
    requires c.mode == Completion && Flush(c, s).error.None?
    ensures var r := Flush(c, s).s; r.closed || r.queue == [] || r.writePending
  {
    hide ToSocketAddress; hide FlushOutbound;
  }

  /** The state after the entry of a completed write has left the queue. */
  ghost function Advanced(c: Config, s: State): State
    requires s.w.pendingWrites != []
  {
    Dequeue(c, LoseRef(WriteReturned(s), s.w.pendingWrites[0].payload.id))
  }

  /**
   * A handled completion leaves the endpoint closed, empty, or with a write outstanding, or its datagram was the
   * last of the queue and the handlers have been told that everything has been flushed.
   */
  lemma CompletionMakesProgress(c: Config, s: State, error: Option<Error>)
    requires Sound(s) && s.w.pendingWrites != [] && c.mode == Completion
    ensures var r, t := HandleWriteCompletion(c, s, error), Advanced(c, s);
            || r.closed || r.queue == [] || r.writePending
            || (error.None? && t.queue == [] && r == Fire(c, t, FlushComplete))
  {
    hide ToSocketAddress; hide Fire; hide Close; hide Dequeue; hide WriteReturned; hide SubmitWrite; hide Framed;
    var s2 := LoseRef(WriteReturned(s), s.w.pendingWrites[0].payload.id);
    ReturnedThenLost(c, s);
    if !s.closed {
      if error.Some? { FailCloses(c, s2, error.value); } else {
        var s3 := Dequeue(c, s2);
        DequeueBase(c, s2);
        if s3.queue != [] {
          SubmitWriteFramed(c, s3);
          var o := SubmitWrite(c, s3);
          FramedHand(c, s3, o.s);
          if o.error.Some? { FailCloses(c, o.s, o.error.value); } else { SubmitMakesProgress(c, s3); }
        }
      }
    }
  }

  /** If the handlers told that everything has been flushed do nothing, progress is certain. */
  lemma CompletionProgressExact(c: Config, s: State, error: Option<Error>)
    requires Sound(s) && s.w.pendingWrites != [] && c.mode == Completion && Silent(Advanced(c, s))
    ensures var r := HandleWriteCompletion(c, s, error); r.closed || r.queue == [] || r.writePending
  {
    hide HandleWriteCompletion; hide Fire; hide Sound; hide Silent; hide Advanced;
    CompletionMakesProgress(c, s, error);
    SilentFire(c, Advanced(c, s), FlushComplete);
  }

  lemma SubmitMakesProgress(c: Config, s: State)
    requires SubmitWrite(c, s).error.None?
    ensures var r := SubmitWrite(c, s).s; r.closed || r.queue == [] || r.writePending
  {
    hide ToSocketAddress;
  }

  lemma FailCloses(c: Config, s: State, e: Error)
    requires Sound(s)
    ensures Close(c, Fire(c, s, Exception(e))).s.closed
  {
    hide Fire; hide Close;
    FireFramed(c, s, Exception(e));
    CloseFramed(c, Fire(c, s, Exception(e)));
  }
}
