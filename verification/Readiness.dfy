/** What a readiness event does on an open endpoint: to the socket, to the queue, to the poller and for the handlers. */
module Readiness {
  import opened Wrappers
  import opened Addresses
  import opened World
  import opened EndpointState
  import opened EndpointSpec
  import opened Frames
  import opened Preservation
  import opened Runs
  import opened Resting
  import opened Reception
  import opened History
  import opened Announcements
  import opened TameHandlers
  import opened Flushing
  import opened Lifecycle
  import opened Reading

  // ---- a whole flush ----

  /** Of what was queued, and what handlers have queued since, the first `m` have been sent and the rest still waits. */
  ghost predicate SentOut(s: State, r: State, m: nat) {
    && s.log.accepted <= r.log.accepted
    && var all := s.queue + Since(s, r);
       && m <= |all| && r.log.sent == s.log.sent + all[..m] && r.queue == all[m..]
       && m <= |s.w.sends| && forall i :: 0 <= i < m ==> s.w.sends[i] == Taken
  }

  /** The socket has no more room, datagrams wait, and the poller is asked to say when there is room. */
  ghost predicate Waits(s: State, r: State, m: nat) {
    && r.queue != [] && (m < |s.w.sends| ==> s.w.sends[m] == WouldBlock)
    && r.writeInterest && Spoken(r.log.events) == Spoken(s.log.events)
  }

  /** All that was queued has been sent, the poller is asked no more, and the handlers have been told so, if at all. */
  ghost predicate Drains(c: Config, s: State, r: State, m: nat, told: bool) {
    && m >= |s.queue| && !r.writeInterest
    && Spoken(r.log.events) == Spoken(s.log.events) + (if c.hasChannel && told then [FlushComplete] else [])
  }

  /**
   * A flush with handlers that neither flush, read nor close, of datagrams that can be sent, without errors of the
   * socket: it sends what the socket takes, in order, keeps exactly the rest, and either waits for room or says that it
   * is done. It fails exactly if the poller has to be asked and refuses, or is closed when asked to watch for room; of
   * a queue that has been emptied the handlers are then not told.
   */
  lemma TameFlush(c: Config, s: State) returns (m: nat)
    requires Smooth(c, s) && c.mode == Readiness
    ensures var o := Flush(c, s);
            && !o.s.closed && o.s.log.dispatched == s.log.dispatched && SentOut(s, o.s, m)
            && (o.error.Some? ==> o.error == Some(ErrPoller))
            && (|| (Waits(s, o.s, m) && (o.error.Some? <==> !s.writeInterest && NextAnswer(s.w) != Accepted))
                || (Drains(c, s, o.s, m, o.error.None?) && (o.error.Some? <==> s.writeInterest && NextAnswer(s.w) == Rejected)))
  {
    hide Smooth; hide FlushLoop; hide Flushed; hide SentOut; hide Waits; hide Drains; hide FlushOutbound; hide StartLoop;
    StartSmooth(c, s);
    var s0 := StartLoop(s);
    SmoothFlush(c, MAX_WRITE_BATCH, s0);
    var (s1, end) := FlushLoop(c, MAX_WRITE_BATCH, s0);
    FlushIs(c, s);
    match end
    case SendFailed(_) => NoFailure(s0, s1, end);
    case Blocked => m := EndsBlocked(c, s, s0, s1);
    case Drained => m := EndsDrained(c, s, s0, s1);
  }

  lemma StartSmooth(c: Config, s: State)
    requires Smooth(c, s)
    ensures var r := StartLoop(s);
            && Smooth(c, r) && !s.closed && r.w == s.w && r.queue == s.queue
            && (forall i :: 0 <= i < |s.w.sends| ==> s.w.sends[i] != Refused)
            && r.log == s.log.(depth := r.log.depth, nested := r.log.nested) && r.writeInterest == s.writeInterest
  {
    hide Tame; hide Polite; hide Sendable;
  }

  lemma FlushIs(c: Config, s: State)
    requires !s.closed && c.mode != Completion
    ensures Flush(c, s) == FlushOutbound(c, s)
    ensures var (s1, end) := FlushLoop(c, MAX_WRITE_BATCH, StartLoop(s));
            FlushOutbound(c, s) ==
            match end
            case SendFailed(e) => Outcome(EndLoop(s1), Some(e))
            case Blocked => Outcome(EndLoop(EnableWriteInterest(c, s1).s), EnableWriteInterest(c, s1).error)
            case Drained =>
              var o := DisableWriteInterest(c, s1);
              if o.error.Some? then Outcome(EndLoop(o.s), o.error)
              else Outcome(Fire(c, EndLoop(o.s), FlushComplete), None)
  {
    hide FlushLoop; hide StartLoop; hide EnableWriteInterest; hide DisableWriteInterest; hide EndLoop; hide Fire;
  }

  lemma NoFailure(s: State, r: State, end: LoopEnd)
    requires Flushed(s, r, end)
    ensures end == Drained || end == Blocked
  {
  }

  lemma EndsBlocked(c: Config, s: State, s0: State, s1: State) returns (m: nat)
    requires c.mode == Readiness && Flushed(s0, s1, Blocked) && s0.writeInterest == s.writeInterest
    requires s0.w == s.w && s0.queue == s.queue && s0.log == s.log.(depth := s0.log.depth, nested := s0.log.nested)
    requires forall i :: 0 <= i < |s.w.sends| ==> s.w.sends[i] != Refused
    ensures var o := EnableWriteInterest(c, s1);
            var r := EndLoop(o.s);
            && !r.closed && r.log.dispatched == s.log.dispatched && SentOut(s, r, m) && Waits(s, r, m)
            && o.error == (if !s.writeInterest && NextAnswer(s.w) != Accepted then Some(ErrPoller) else None)
  {
    hide Tame; hide Spoken;
    var all := s0.queue + Since(s0, s1);
    m := TakenPrefix(s.w.sends, |all|);
    TakenPrefixIs(s.w.sends, |all|);
    var r := EndLoop(EnableWriteInterest(c, s1).s);
    assert Since(s, r) == Since(s0, s1);
  }

  lemma EndsDrained(c: Config, s: State, s0: State, s1: State) returns (m: nat)
    requires c.mode == Readiness && Flushed(s0, s1, Drained) && s0.writeInterest == s.writeInterest
    requires s0.w == s.w && s0.queue == s.queue && s0.log == s.log.(depth := s0.log.depth, nested := s0.log.nested)
    requires forall i :: 0 <= i < |s.w.sends| ==> s.w.sends[i] != Refused
    ensures var o := DisableWriteInterest(c, s1);
            var r := if o.error.Some? then EndLoop(o.s) else Fire(c, EndLoop(o.s), FlushComplete);
            && !r.closed && r.log.dispatched == s.log.dispatched && SentOut(s, r, m) && Drains(c, s, r, m, o.error.None?)
            && o.error == (if s.writeInterest && NextAnswer(s.w) == Rejected then Some(ErrPoller) else None)
  {
    hide Tame; hide Spoken; hide Fire; hide Flushed; hide Polite;
    var t := EndLoop(DisableWriteInterest(c, s1).s);
    m := DrainedLoop(c, s, s0, s1);
    assert Spoken(s.log.events) + [] == Spoken(s.log.events);
    if DisableWriteInterest(c, s1).error.None? {
      TameFire(c, false, t, FlushComplete);
      var u := if c.hasChannel then Emit(t, FlushComplete) else t;
      AfterDrained(c, s, t, u, Fire(c, t, FlushComplete), m);
    }
  }

  /** The end of the loop, before anybody is told. */
  lemma DrainedLoop(c: Config, s: State, s0: State, s1: State) returns (m: nat)
    requires c.mode == Readiness && Flushed(s0, s1, Drained) && s0.writeInterest == s.writeInterest
    requires s0.w == s.w && s0.queue == s.queue && s0.log == s.log.(depth := s0.log.depth, nested := s0.log.nested)
    requires forall i :: 0 <= i < |s.w.sends| ==> s.w.sends[i] != Refused
    ensures var o := DisableWriteInterest(c, s1);
            var t := EndLoop(o.s);
            && o.error == (if s.writeInterest && NextAnswer(s.w) == Rejected then Some(ErrPoller) else None)
            && !t.closed && Tame(t.w.script) && t.queue == [] && !t.writeInterest
            && t.log.dispatched == s.log.dispatched && SentOut(s, t, m) && m >= |s.queue|
            && Spoken(t.log.events) == Spoken(s.log.events)
  {
    hide Tame; hide Spoken;
    var all := s0.queue + Since(s0, s1);
    m := TakenPrefix(s.w.sends, |all|);
    TakenPrefixIs(s.w.sends, |all|);
    var t := EndLoop(DisableWriteInterest(c, s1).s);
    assert Since(s, t) == Since(s0, s1);
  }

  lemma AfterDrained(c: Config, s: State, t: State, u: State, r: State, m: nat)
    requires SentOut(s, t, m) && t.queue == [] && m >= |s.queue| && !t.writeInterest
    requires u.log == t.log.(events := u.log.events) && u.queue == t.queue && u.writeInterest == t.writeInterest
    requires OnlyQueues(c, false, u, r) && t.log.dispatched == s.log.dispatched
    requires Spoken(u.log.events) == Spoken(s.log.events) + (if c.hasChannel then [FlushComplete] else [])
    ensures !r.closed && r.log.dispatched == s.log.dispatched && SentOut(s, r, m) && Drains(c, s, r, m, true)
  {
    hide Tame; hide Spoken; hide Polite;
    assert Since(s, r) == Since(s, t) + Since(u, r);
    var all := s.queue + Since(s, t);
    assert all[m..] == [] ==> m == |all|;
    assert s.queue + Since(s, r) == all + Since(u, r);
    assert (all + Since(u, r))[..m] == all && (all + Since(u, r))[m..] == Since(u, r);
  }

  // ---- events ----

  /** The part of an event that is about reading. */
  ghost function AfterRead(c: Config, s: State, ev: PollEvent): State
    requires ev.Ready?
  {
    if ev.canRead && (!c.hasChannel || s.w.autoRead) then ReadReady(c, s) else s
  }

  lemma AfterReadCore(c: Config, s: State, ev: PollEvent)
    requires Core(c, s) && !s.closed && c.mode != Completion && ev.Ready?
    ensures var s1 := AfterRead(c, s, ev); Core(c, s1) && Whole(c, s1) && Past(s.log, s1)
  {
    hide Core; hide ReadReady; hide Invariant;
    RememberingInvariant(c, s.log);
    SamePast(s, s);
    CoreInvariant(c);
    ReadPartPreserves(c, Remembering(c, s.log), s);
  }

  /** The part about writing. */
  ghost function AfterWrite(c: Config, s: State): State {
    var o := FlushOutbound(c, s);
    if o.error.Some? then Failing(c, o.s, o.error.value) else o.s
  }

  lemma ReadyIs(c: Config, s: State, ev: PollEvent)
    requires c.mode != Completion && !s.closed && ev.Ready? && ev.error.None? && !ev.hangup
    ensures HandleEvent(c, s, ev) == if ev.canWrite then AfterWrite(c, AfterRead(c, s, ev)) else AfterRead(c, s, ev)
  {
    hide ReadReady; hide FlushOutbound; hide Fire; hide Close;
  }

  /** An error is told, and closes the endpoint; so does a hangup, of which the handlers only hear the end. */
  lemma ReadyEnds(c: Config, s: State, ev: PollEvent)
    requires Core(c, s) && c.mode != Completion && !s.closed && ev.Ready? && (ev.error.Some? || ev.hangup)
    ensures var r := HandleEvent(c, s, ev);
            && r.closed && r.queue == []
            && (ev.error.Some? && c.hasChannel ==> s.log.events + [Exception(ev.error.value)] <= r.log.events)
            && (ev.error.None? && c.hasChannel ==>
                  r.log.events == s.log.events + (if s.writable then [WritabilityChanged(false)] else []) + [Inactive])
  {
    hide Core; hide Fire; hide Close; hide Framed; hide Base;
    CoreOpen(c, s);
    match ev.error
    case Some(e) =>
      FailGrows(c, s, e);
      FireFramed(c, s, Exception(e));
      BaseWhole(c, s, Fire(c, s, Exception(e)));
      FailShut(c, Fire(c, s, Exception(e)));
    case None => CloseExact(c, s); FailShut(c, s);
  }

  lemma FailShut(c: Config, s: State)
    requires Whole(c, s)
    ensures Close(c, s).s.queue == []
  {
    hide Close; hide Framed;
    CloseFramed(c, s);
    if s.closed { CloseExact(c, s); }
  }

  lemma AfterWriteGrows(c: Config, s: State)
    requires Core(c, s) && Whole(c, s) && c.mode != Completion
    ensures Core(c, AfterWrite(c, s)) && Past(s.log, AfterWrite(c, s)) && (s.closed ==> AfterWrite(c, s).closed)
    ensures FlushOutbound(c, s).error.Some? ==> AfterWrite(c, s).closed
  {
    hide Core; hide Whole; hide FlushOutbound; hide Past; hide Failing; hide Base; hide Before;
    FlushGrows(c, s);
    FlushOutboundBase(c, s);
    MonotoneBase(c, s, FlushOutbound(c, s).s);
    var o := FlushOutbound(c, s);
    if o.error.Some? {
      FailGrows(c, o.s, o.error.value);
      TellsPast(c, o.s, o.error.value, AfterWrite(c, s));
      PastTrans(s.log, o.s, AfterWrite(c, s));
    }
  }

  lemma TellsPast(c: Config, s: State, e: Error, r: State)
    requires Past(Before(c, s, Exception(e)).log, r)
    ensures Past(s.log, r)
  {
  }

  /**
   * With data to read, on an endpoint that reads on its own: everything that `ReadExactly` says of a read, whether or
   * not the event also says that there is room for writing.
   */
  lemma ReadyReads(c: Config, s: State, ev: PollEvent) returns (k: nat)
    requires Core(c, s) && c.mode != Completion && !s.closed && !s.log.reading && ev.Ready? && ev.error.None? && !ev.hangup
    requires ev.canRead && c.hasChannel && c.hasAllocator && s.w.autoRead
    ensures var r := HandleEvent(c, s, ev);
            var (t, error) := HandedOn(c, s);
            && k <= Due(s.w, ReadLimit(c)) && (s.w.grants == [] && !t.closed ==> k == Due(s.w, ReadLimit(c)))
            && Contents(t.log.dispatched) == Contents(s.log.dispatched) + Letters(s.w.arrivals[..k], c.readBufferSize)
            && Contents(t.log.dispatched) <= Contents(r.log.dispatched) && s.log.events <= t.log.events
            && (t.closed ==> r.closed)
            && match error
               case Some(e) => r.closed && t.log.events + [Exception(e)] <= r.log.events
               case None => k > 0 ==> t.log.events + [ReadComplete] <= r.log.events
  {
    hide Core; hide HandedOn; hide Contents; hide Letters; hide Good; hide GoodPrefix; hide ReadReady; hide HandleEvent;
    hide Whole; hide AfterWrite; hide Read;
    k := ReadExactly(c, s);
    ReadIs(c, s);
    AfterReadCore(c, s, ev);
    ReadyIs(c, s, ev);
    var s1 := AfterRead(c, s, ev);
    SamePast(s1, s1);
    AfterWriteGrows(c, s1);
    ContentsPast(s1.log, HandleEvent(c, s, ev));
  }

  /**
   * With room for writing, whatever handlers do: the endpoint ends closed, or datagrams wait and the poller is asked to
   * say when there is room, or the queue has been emptied, the poller is asked no more, and the handlers have been told
   * so; unless a handler has flushed from inside the flush.
   */
  lemma ReadyWrites(c: Config, s: State, ev: PollEvent)
    requires Core(c, s) && c.mode == Readiness && !s.closed && ev.Ready? && ev.error.None? && !ev.hangup && ev.canWrite
    ensures var r := HandleEvent(c, s, ev);
            var t := Emptied(c, AfterRead(c, s, ev));
            || r.closed || r.log.nested || (r.queue != [] && r.writeInterest)
            || (t.queue == [] && !t.writeInterest && r == Fire(c, t, FlushComplete)
                && (c.hasChannel ==> t.log.events + [FlushComplete] <= r.log.events))
  {
    hide Core; hide FlushOutbound; hide Fire; hide Emptied; hide Whole; hide AfterRead; hide HandleEvent; hide Failing;
    AfterReadCore(c, s, ev);
    ReadyIs(c, s, ev);
    var s1 := AfterRead(c, s, ev);
    AfterWriteGrows(c, s1);
    if !s1.closed {
      if FlushOutbound(c, s1).error.None? { FlushSettlesInterest(c, s1); }
    }
  }

  /** Without data to read, or without being asked to read, nothing is read; without room, nothing is written. */
  lemma ReadyIdle(c: Config, s: State, ev: PollEvent)
    requires c.mode != Completion && !s.closed && ev.Ready? && ev.error.None? && !ev.hangup && !ev.canWrite
    requires !ev.canRead || (c.hasChannel && !s.w.autoRead) || !c.hasAllocator
    ensures HandleEvent(c, s, ev) == s
  {
    hide ReadLoop; hide FlushOutbound; hide Fire; hide Close;
  }

  // ---- the whole event, with handlers that neither flush, read nor close ----

  lemma ReadSmooth(c: Config, s: State, t: State)
    requires Smooth(c, s) && Queueing(c, true, s, t)
    ensures Smooth(c, t) && t.w.sends == s.w.sends
  {
    hide Tame; hide Polite; hide Sendable;
    assert forall i :: 0 <= i < |Since(s, t)| ==> Since(s, t)[i] == t.log.accepted[|s.log.accepted| + i];
  }

  lemma QueueingSent(c: Config, s: State, t: State, r: State, m: nat)
    requires Queueing(c, true, s, t) && SentOut(t, r, m)
    ensures SentOut(s, r, m)
  {
    hide Tame; hide Polite; hide Sendable;
    assert Since(s, r) == Since(s, t) + Since(t, r);
    assert s.queue + Since(s, r) == t.queue + Since(t, r);
  }

  lemma SmoothFacts(c: Config, s: State)
    requires Smooth(c, s)
    ensures !s.closed && Tame(s.w.script) && Polite(c, s.w.script)
  {
    hide Tame; hide Polite; hide Sendable;
  }

  /** Writing on an endpoint that a failed read has closed sends nothing. */
  lemma ClosedWrite(c: Config, s: State)
    requires s.closed && s.queue == [] && c.mode == Readiness
    ensures var r := AfterWrite(c, s); r.closed && r.log.dispatched == s.log.dispatched && r.log.sent == s.log.sent
  {
    hide Fire; hide Close; hide DisableWriteInterest; hide StartLoop; hide EndLoop;
    var s0 := StartLoop(s);
    StartKeeps(s);
    assert FlushLoop(c, MAX_WRITE_BATCH, s0) == (s0, Drained);
    var o := DisableWriteInterest(c, s0);
    DisabledFields(c, s0);
    StartKeeps(o.s);
    ClosedFire(c, EndLoop(o.s), FlushComplete);
    if o.error.Some? {
      ClosedFire(c, EndLoop(o.s), Exception(o.error.value));
      CloseExact(c, Fire(c, EndLoop(o.s), Exception(o.error.value)));
    }
  }

  lemma StartKeeps(s: State)
    ensures StartLoop(s).closed == s.closed && StartLoop(s).log.dispatched == s.log.dispatched
    ensures StartLoop(s).log.sent == s.log.sent
    ensures EndLoop(s).closed == s.closed && EndLoop(s).log.dispatched == s.log.dispatched && EndLoop(s).log.sent == s.log.sent
  {
  }

  lemma ClosedFire(c: Config, s: State, x: Event)
    requires s.closed
    ensures var r := Fire(c, s, x); r.closed && r.log.dispatched == s.log.dispatched && r.log.sent == s.log.sent
  {
    hide Fire;
    FireFramed(c, s, x);
  }

  /** The part of the event that reads, if it asks for reading and the endpoint reads on its own. */
  lemma TameAfterRead(c: Config, s: State, ev: PollEvent) returns (k: nat)
    requires Core(c, s) && Smooth(c, s) && c.mode == Readiness && c.hasAllocator && c.hasChannel && !s.log.reading && ev.Ready?
    ensures var s1 := AfterRead(c, s, ev);
            var (t, error) := HandedOn(c, s);
            && Handed(s, s1, k, c.readBufferSize)
            && (if ev.canRead && s.w.autoRead then
                  && k <= Due(s.w, ReadLimit(c)) && (s.w.grants == [] ==> k == Due(s.w, ReadLimit(c)))
                  && ToldReads(c, s, t) && s1.log.dispatched == t.log.dispatched && (s1.closed <==> error.Some?)
                  && Spoken(s1.log.events) == Spoken(t.log.events) +
                       (if error.Some? then [Exception(error.value), Inactive] else if k > 0 then [ReadComplete] else [])
                else k == 0 && s1 == s)
            && (!s1.closed ==> Queueing(c, true, s, s1) && Still(s, s1))
  {
    hide Core; hide Smooth; hide ReadReady; hide HandedOn; hide Contents; hide Letters; hide Good; hide GoodPrefix;
    hide Spoken; hide Tells; hide Sendable;
    SmoothFacts(c, s);
    if ev.canRead && s.w.autoRead {
      k := TameRead(c, true, s);
      var (t, error) := HandedOn(c, s);
      if error.None? { QueueingTrans(c, true, s, t, ReadReady(c, s)); }
    } else {
      k := 0;
      NothingHanded(s, c.readBufferSize);
      ApartReads(c, true, s, s);
    }
  }

  lemma NothingHanded(s: State, size: nat)
    ensures Handed(s, s, 0, size)
  {
    hide Opened;
  }

  /**
   * A readiness event with such handlers and without errors of the socket's sends and the poller. With data to read it
   * hands on exactly what is due, tells the handlers of each and then that this is all, or of the failure that ended it.
   * With room for writing, and unless a failed read has closed the endpoint, it sends what the socket takes of what was
   * queued and what handlers have queued since, keeps exactly the rest, and waits for room or says that it is done.
   */
  lemma ReadyTame(c: Config, s: State, ev: PollEvent) returns (k: nat, m: nat)
    requires Core(c, s) && Smooth(c, s) && c.mode == Readiness && c.hasAllocator && c.hasChannel && !s.log.reading
    requires ev.Ready? && ev.error.None? && !ev.hangup && NextAnswer(s.w) == Accepted
    ensures var r, s1 := HandleEvent(c, s, ev), AfterRead(c, s, ev);
            var (t, error) := HandedOn(c, s);
            var asked := ev.canRead && s.w.autoRead;
            && Handed(s, r, k, c.readBufferSize)
            && (if asked then k <= Due(s.w, ReadLimit(c)) && (s.w.grants == [] ==> k == Due(s.w, ReadLimit(c))) else k == 0)
            && (asked ==> ToldReads(c, s, t) && r.log.dispatched == t.log.dispatched)
            && Spoken(s1.log.events) == Spoken((if asked then t else s).log.events) +
                 (if asked && error.Some? then [Exception(error.value), Inactive] else if k > 0 then [ReadComplete] else [])
            && (r.closed <==> asked && error.Some?)
            && (!r.closed && ev.canWrite ==> SentOut(s, r, m) && (Waits(s1, r, m) || Drains(c, s1, r, m, true)))
            && (r.closed || !ev.canWrite ==> r.log.sent == s.log.sent)
            && (!ev.canWrite ==> r == s1)
  {
    hide Core; hide Smooth; hide Contents; hide Letters; hide Good; hide GoodPrefix; hide Spoken; hide Tells; hide HandleEvent;
    hide AfterRead; hide AfterWrite; hide HandedOn; hide SentOut; hide Waits; hide Drains; hide ToldReads; hide Flush;
    m := 0;
    SmoothFacts(c, s);
    k := TameAfterRead(c, s, ev);
    ReadyIs(c, s, ev);
    var s1 := AfterRead(c, s, ev);
    assert Spoken(s.log.events) + [] == Spoken(s.log.events);
    ReadSends(c, s, ev);
    if s1.closed {
      if ev.canWrite { ClosedWrite(c, s1); }
    } else {
      StillFacts(c, s, s1);
      if ev.canWrite {
        ReadSmooth(c, s, s1);
        m := TameFlush(c, s1);
        AfterFlush(c, s1);
        QueueingSent(c, s, s1, AfterWrite(c, s1), m);
      }
    }
  }

  lemma StillFacts(c: Config, s: State, t: State)
    requires Queueing(c, true, s, t) && Still(s, t)
    ensures t.log.sent == s.log.sent && NextAnswer(t.w) == NextAnswer(s.w)
  {
  }

  lemma AfterFlush(c: Config, s: State)
    requires !s.closed && c.mode == Readiness && Flush(c, s).error.None?
    ensures AfterWrite(c, s) == Flush(c, s).s
  {
    hide FlushOutbound;
  }

  /** Reading sends nothing; if it fails, the queue is released. */
  lemma ReadSends(c: Config, s: State, ev: PollEvent)
    requires Core(c, s) && Smooth(c, s) && c.mode == Readiness && c.hasAllocator && c.hasChannel && !s.log.reading && ev.Ready?
    ensures var s1 := AfterRead(c, s, ev); s1.closed ==> s1.log.sent == s.log.sent && s1.queue == []
  {
    hide Core; hide Smooth; hide Rounds; hide ReadReady; hide Fire; hide Spoken; hide Tame; hide Polite; hide Failing;
    hide Whole; hide Queueing; hide ToldReads;
    SmoothFacts(c, s);
    AfterReadCore(c, s, ev);
    ClosedQueue(c, AfterRead(c, s, ev));
    if ev.canRead && s.w.autoRead {
      TameRounds(c, true, s, ReadLimit(c), false);
      RoundsGrow(c, s, ReadLimit(c), false);
      CoreOpen(c, s);
      var k := ReadLoopExact(c, s, ReadLimit(c), false);
      ReadReadyIs(c, s, k);
      var (t, error) := HandedOn(c, s);
      QueueingScript(c, true, s, t);
      QueueingLog(c, s, t);
      match error
      case Some(e) => TameFails(c, t, e);
      case None => TameEnds(c, true, t, k);
    }
  }

  lemma QueueingLog(c: Config, s: State, t: State)
    requires Queueing(c, true, s, t)
    ensures t.log.sent == s.log.sent && !t.closed
  {
  }

  lemma ClosedQueue(c: Config, s: State)
    requires Whole(c, s)
    ensures s.closed ==> s.queue == []
  {
  }
}
