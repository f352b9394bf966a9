/** Reading a ready socket as a whole: what is handed on, what the handlers hear, and how it ends. */
module Reading {
  import opened Wrappers
  import opened Addresses
  import opened World
  import opened EndpointState
  import opened EndpointSpec
  import opened Frames
  import opened Preservation
  import opened Reception
  import opened History
  import opened Announcements
  import opened TameHandlers
  import opened Lifecycle

  lemma {:induction false} RoundsPreserve(c: Config, P: State -> bool, s: State, remaining: int, any: bool)
    requires Invariant(c, P) && P(s) && c.hasChannel
    ensures P(Rounds(c, s, remaining, any).0)
    decreases Work(s), |s.w.script|, if remaining > 0 then remaining else 0
  {
    hide Invariant; hide Round; hide ReceiveInbound; hide Work;
    if remaining > 0 && !s.closed {
      RoundPreserves(c, P, s, remaining, any);
      var got := ReceiveInbound(c.linux, s.w, c.readBufferSize, remaining);
      var (t, any1) := Round(c, s, remaining, any);
      if !(got.error.Some? || got.drained || got.messages == []) {
        RoundsPreserve(c, P, t, remaining - |got.messages|, any1);
      }
    }
  }

  lemma RoundPreserves(c: Config, P: State -> bool, s: State, remaining: int, any: bool)
    requires Invariant(c, P) && P(s) && c.hasChannel
    ensures P(Round(c, s, remaining, any).0)
  {
    hide Invariant; hide ReceiveInbound; hide Dispatch; hide SetReading;
    BatchPreserves(c, P, s, remaining, any);
  }

  lemma RoundsGrow(c: Config, s: State, remaining: int, any: bool)
    requires Core(c, s) && c.hasChannel
    ensures var t := Rounds(c, s, remaining, any).0; Core(c, t) && Past(s.log, t)
  {
    hide Core; hide Rounds; hide Invariant;
    RememberingInvariant(c, s.log);
    SamePast(s, s);
    RoundsPreserve(c, Remembering(c, s.log), s, remaining, any);
  }

  /** The messages one read may hand on: what the option says, and at least one. */
  function ReadLimit(c: Config): (n: nat)
    ensures n >= 1 && (c.maxMessages >= 1 ==> n == c.maxMessages)
  {
    if c.maxMessages < 1 then 1 else c.maxMessages
  }

  /** The state once everything this read hands on has been handed on, and the error that ended it, if any. */
  ghost function HandedOn(c: Config, s: State): (State, Option<Error>)
    requires c.hasChannel
  {
    var r := Rounds(c, s, ReadLimit(c), false);
    (r.0, r.2)
  }

  lemma ContentsPast(l: Log, s: State)
    requires Past(l, s)
    ensures Contents(l.dispatched) <= Contents(s.log.dispatched)
  {
  }

  lemma ReadReadyIs(c: Config, s: State, k: nat)
    requires c.hasAllocator && c.hasChannel && !s.log.reading
    requires Rounds(c, s, ReadLimit(c), false).1 == (k > 0)
    ensures var (t, error) := HandedOn(c, s);
            ReadReady(c, s) == match error
                               case Some(e) => Failing(c, t, e)
                               case None => if k > 0 then Fire(c, t, ReadComplete) else t
  {
    hide Rounds; hide ReadLoop; hide Fire; hide Close;
    LoopIsRounds(c, s, ReadLimit(c), false);
  }

  /**
   * One read of an open endpoint, whatever fails and whatever handlers do: they are given the first `k` arrivals, in
   * order and each once. If they leave the endpoint open and no buffer is refused, these are exactly the datagrams
   * ahead of the first failure, up to the limit. Then they hear that this is all, exactly if something was handed on
   * and nothing failed; a failure they hear of instead, and the endpoint is closed.
   */
  lemma ReadExactly(c: Config, s: State) returns (k: nat)
    requires Core(c, s) && !s.closed && !s.log.reading && c.mode != Completion && c.hasAllocator && c.hasChannel
    ensures var o := Read(c, s);
            var (t, error) := HandedOn(c, s);
            && o.error.None? && k <= Due(s.w, ReadLimit(c))
            && Contents(t.log.dispatched) == Contents(s.log.dispatched) + Letters(s.w.arrivals[..k], c.readBufferSize)
            && Contents(t.log.dispatched) <= Contents(o.s.log.dispatched) && s.log.events <= t.log.events
            && (s.w.grants == [] && !t.closed ==> k == Due(s.w, ReadLimit(c)))
            && (s.w.grants == [] && error.Some? ==> Due(s.w, ReadLimit(c)) == GoodPrefix(s.w.arrivals) < |s.w.arrivals|)
            && (!t.closed && error.None? ==> t.w.arrivals == s.w.arrivals[k..])
            && (t.closed ==> o.s.closed)
            && match error
               case Some(e) => o.s.closed && t.log.events + [Exception(e)] <= o.s.log.events
               case None => if k > 0 then t.log.events + [ReadComplete] <= o.s.log.events else o.s == t
  {
    hide Core; hide Rounds; hide Fire; hide Contents; hide Letters; hide Good; hide GoodPrefix; hide Failing; hide ReadReady;
    hide Base; hide Framed; hide ReadLoop; hide Ended;
    CoreOpen(c, s);
    k := ReadLoopExact(c, s, ReadLimit(c), false);
    RoundsGrow(c, s, ReadLimit(c), false);
    ReadReadyIs(c, s, k);
    var (t, error) := HandedOn(c, s);
    ReadIs(c, s);
    ReadEnds(c, t, error, k);
  }

  lemma ReadIs(c: Config, s: State)
    requires !s.closed && c.mode != Completion
    ensures Read(c, s) == Outcome(ReadReady(c, s), None)
  {
    hide ReadReady;
  }

  /** The end of a read. */
  lemma ReadEnds(c: Config, t: State, error: Option<Error>, k: nat)
    requires Core(c, t) && c.hasChannel
    ensures var r := match error
                     case Some(e) => Failing(c, t, e)
                     case None => if k > 0 then Fire(c, t, ReadComplete) else t;
            && Contents(t.log.dispatched) <= Contents(r.log.dispatched) && (t.closed ==> r.closed)
            && Core(c, r) && Past(t.log, r)
            && match error
               case Some(e) => r.closed && t.log.events + [Exception(e)] <= r.log.events
               case None => if k > 0 then t.log.events + [ReadComplete] <= r.log.events else r == t
  {
    hide Core; hide Fire; hide Contents; hide Failing; hide Past;
    SamePast(t, t);
    match error
    case Some(e) => FailEnds(c, t, e);
    case None => CompleteEnds(c, t);
  }

  lemma FailEnds(c: Config, t: State, e: Error)
    requires Core(c, t) && c.hasChannel
    ensures var r := Failing(c, t, e);
            && Contents(t.log.dispatched) <= Contents(r.log.dispatched) && Core(c, r) && Past(t.log, r)
            && r.closed && t.log.events + [Exception(e)] <= r.log.events
  {
    hide Core; hide Contents; hide Failing;
    FailGrows(c, t, e);
    ContentsPast(t.log, Failing(c, t, e));
  }

  lemma CompleteEnds(c: Config, t: State)
    requires Core(c, t) && c.hasChannel
    ensures var r := Fire(c, t, ReadComplete);
            && Contents(t.log.dispatched) <= Contents(r.log.dispatched) && Core(c, r) && Past(t.log, r)
            && (t.closed ==> r.closed) && t.log.events + [ReadComplete] <= r.log.events
  {
    hide Core; hide Fire; hide Contents; hide Base; hide Framed;
    FireGrows(c, t, ReadComplete);
    ContentsPast(t.log, Fire(c, t, ReadComplete));
    CoreOpen(c, t);
    FireFramed(c, t, ReadComplete);
    MonotoneBase(c, t, Fire(c, t, ReadComplete));
  }

  // ---- handlers that neither flush, read nor close ----

  /** What has been told since is what has been handed on since, one announcement each. */
  ghost predicate ToldReads(c: Config, s: State, t: State) {
    var n, d := |Spoken(s.log.events)|, |s.log.dispatched|;
    && s.log.dispatched <= t.log.dispatched && Spoken(s.log.events) <= Spoken(t.log.events)
    && |Spoken(t.log.events)| - n == |t.log.dispatched| - d
    && forall i :: d <= i < |t.log.dispatched| ==> Tells(c, Spoken(t.log.events)[n + i - d], t.log.dispatched[i])
  }

  /** Nothing has been submitted or asked of the poller. */
  predicate Still(s: State, t: State) {
    && t.writeInterest == s.writeInterest && t.readPending == s.readPending && t.writePending == s.writePending
    && t.log.depth == s.log.depth && t.log.nested == s.log.nested && t.w.answers == s.w.answers
    && t.w.pendingReads == s.w.pendingReads && t.w.pendingWrites == s.w.pendingWrites
  }

  ghost predicate ReadsOn(c: Config, p: bool, s: State, t: State) {
    Queueing(c, p, s, t) && ToldReads(c, s, t) && Still(s, t)
  }

  lemma ReadsOnTrans(c: Config, p: bool, s: State, t: State, r: State)
    requires ReadsOn(c, p, s, t) && ReadsOn(c, p, t, r)
    ensures ReadsOn(c, p, s, r)
  {
    hide Queueing; hide ToldReads;
    QueueingTrans(c, p, s, t, r);
    ToldReadsTrans(c, s, t, r);
  }

  lemma ToldReadsTrans(c: Config, s: State, t: State, r: State)
    requires ToldReads(c, s, t) && ToldReads(c, t, r)
    ensures ToldReads(c, s, r)
  {
    hide Spoken; hide Tells;
    var n, d := |Spoken(s.log.events)|, |s.log.dispatched|;
    forall i | d <= i < |r.log.dispatched| ensures Tells(c, Spoken(r.log.events)[n + i - d], r.log.dispatched[i]) {
      if i < |t.log.dispatched| {
        assert r.log.dispatched[i] == t.log.dispatched[i];
        assert Spoken(r.log.events)[n + i - d] == Spoken(t.log.events)[n + i - d];
      }
    }
  }

  lemma QueuesRead(c: Config, p: bool, s: State, t: State)
    requires OnlyQueues(c, p, s, t)
    ensures ReadsOn(c, p, s, t)
  {
    hide Queueing; hide Spoken;
  }

  /** A change of the world that handlers and sends do not see, or of the mark that a batch is being handed on. */
  lemma ApartReads(c: Config, p: bool, s: State, t: State)
    requires !s.closed && t.closed == s.closed && t.queue == s.queue && Apart(s.w, t.w)
    requires t.log == s.log.(reading := t.log.reading)
    requires t.writeInterest == s.writeInterest && t.readPending == s.readPending && t.writePending == s.writePending
    ensures ReadsOn(c, p, s, t)
  {
    hide Sendable; hide Tame; hide Polite; hide Spoken;
    assert Since(s, t) == [];
  }

  lemma ArrivedReads(c: Config, p: bool, s: State, m: Inbound)
    requires !s.closed && c.hasChannel
    ensures ReadsOn(c, p, s, Arrived(c, s, m)) && Arrived(c, s, m).log.dispatched == s.log.dispatched + [m]
  {
    hide Tame; hide Polite; hide Sendable; hide Names; hide Spoken; hide Arrived;
    var e := ArrivedTells(c, s, m);
    SpokenAppend(s.log.events, e);
    ArrivedApart(c, s, m);
    assert Since(s, Arrived(c, s, m)) == [];
  }

  lemma ArrivedApart(c: Config, s: State, m: Inbound)
    ensures var t := Arrived(c, s, m);
            && Apart(s.w, t.w) && t.queue == s.queue && Still(s, t)
            && t.log == s.log.(events := t.log.events, dispatched := t.log.dispatched)
  {
    hide HandOver; hide AcquireEnvelope; hide Announced;
    HandOverFields(s.w, BufRef(m.payload.id));
    EnvelopeFields(HandOver(s.w, BufRef(m.payload.id)));
    var s1 := s.(w := HandOver(s.w, BufRef(m.payload.id)));
    var envelope := if c.pooled then Some(AcquireEnvelope(s1.w).1) else None;
    AnnouncedApart(if c.pooled then s1.(w := AcquireEnvelope(s1.w).0) else s1, m, envelope);
  }

  lemma AnnouncedApart(s: State, m: Inbound, envelope: Option<nat>)
    ensures var t := Announced(s, m, envelope);
            && t.w == s.w && t.queue == s.queue && Still(s, t)
            && t.log == s.log.(events := t.log.events, dispatched := t.log.dispatched)
  {
    hide FromSocketAddress;
  }

  lemma TameDelivery(c: Config, p: bool, s: State, m: Inbound)
    requires !s.closed && Tame(s.w.script) && (p ==> Polite(c, s.w.script)) && c.hasChannel
    ensures var t := FireChannelRead(c, s, m); ReadsOn(c, p, s, t) && t.log.dispatched == s.log.dispatched + [m]
  {
    hide Arrived; hide RunHandler; hide Tame; hide Polite; hide Queueing; hide ToldReads;
    ArrivedReads(c, p, s, m);
    var t := Arrived(c, s, m);
    QueueingScript(c, p, s, t);
    TameRun(c, p, t);
    QueuesRead(c, p, t, RunHandler(c, t));
    ReadsOnTrans(c, p, s, t, RunHandler(c, t));
  }

  lemma QueueingScript(c: Config, p: bool, s: State, t: State)
    requires Queueing(c, p, s, t)
    ensures !t.closed && (Tame(s.w.script) ==> Tame(t.w.script)) && (Polite(c, s.w.script) ==> Polite(c, t.w.script))
  {
  }

  lemma {:induction false} TameDispatch(c: Config, p: bool, s: State, ms: seq<Inbound>, any: bool)
    requires !s.closed && Tame(s.w.script) && (p ==> Polite(c, s.w.script)) && c.hasChannel
    ensures var t := Dispatch(c, s, ms, any).0; ReadsOn(c, p, s, t) && t.log.dispatched == s.log.dispatched + ms
    decreases |ms|
  {
    hide FireChannelRead; hide Tame; hide Polite; hide ReadsOn;
    if ms == [] {
      ApartReads(c, p, s, s);
    } else {
      var t := FireChannelRead(c, s, ms[0]);
      TameDelivery(c, p, s, ms[0]);
      ReadsOnScript(c, p, s, t);
      TameDispatch(c, p, t, ms[1..], true);
      ReadsOnTrans(c, p, s, t, Dispatch(c, t, ms[1..], true).0);
      assert ms == [ms[0]] + ms[1..];
    }
  }

  lemma ReadsOnScript(c: Config, p: bool, s: State, t: State)
    requires ReadsOn(c, p, s, t)
    ensures !t.closed && (Tame(s.w.script) ==> Tame(t.w.script)) && (Polite(c, s.w.script) ==> Polite(c, t.w.script))
  {
    hide Tame; hide Polite; hide ToldReads;
  }

  lemma TameRound(c: Config, p: bool, s: State, remaining: int, any: bool)
    requires !s.closed && Tame(s.w.script) && (p ==> Polite(c, s.w.script)) && c.hasChannel
    ensures ReadsOn(c, p, s, Round(c, s, remaining, any).0)
  {
    hide Dispatch; hide ReceiveInbound; hide Tame; hide Polite; hide ReadsOn;
    var got := ReceiveInbound(c.linux, s.w, c.readBufferSize, remaining);
    var s0 := SetReading(s.(w := got.w), true);
    ApartReads(c, p, s, s0);
    TameDispatch(c, p, s0, got.messages, any);
    var s1 := Dispatch(c, s0, got.messages, any).0;
    ReadsOnTrans(c, p, s, s0, s1);
    ReadsOnScript(c, p, s, s1);
    ApartReads(c, p, s1, SetReading(s1, false));
    ReadsOnTrans(c, p, s, s1, SetReading(s1, false));
  }

  lemma {:induction false} TameRounds(c: Config, p: bool, s: State, remaining: int, any: bool)
    requires !s.closed && Tame(s.w.script) && (p ==> Polite(c, s.w.script)) && c.hasChannel
    ensures ReadsOn(c, p, s, Rounds(c, s, remaining, any).0)
    decreases Work(s), |s.w.script|, if remaining > 0 then remaining else 0
  {
    hide Round; hide ReceiveInbound; hide Tame; hide Polite; hide ReadsOn; hide Work;
    if remaining <= 0 { ApartReads(c, p, s, s); } else {
      TameRound(c, p, s, remaining, any);
      var got := ReceiveInbound(c.linux, s.w, c.readBufferSize, remaining);
      var (t, any1) := Round(c, s, remaining, any);
      if !(got.error.Some? || got.drained || got.messages == []) {
        ReadsOnScript(c, p, s, t);
        TameRounds(c, p, t, remaining - |got.messages|, any1);
        ReadsOnTrans(c, p, s, t, Rounds(c, t, remaining - |got.messages|, any1).0);
      }
    }
  }

  /**
   * With such handlers, exactly what they hear: of each datagram handed on, in order, and then that this is all, if
   * there was any; or, after the datagrams ahead of a failure, of the failure and of the end.
   */
  lemma TameRead(c: Config, p: bool, s: State) returns (k: nat)
    requires Core(c, s) && !s.closed && !s.log.reading && c.mode != Completion && c.hasAllocator && c.hasChannel
    requires Tame(s.w.script) && (p ==> Polite(c, s.w.script))
    ensures var r := ReadReady(c, s);
            var (t, error) := HandedOn(c, s);
            && ReadsOn(c, p, s, t) && k <= Due(s.w, ReadLimit(c)) && (s.w.grants == [] ==> k == Due(s.w, ReadLimit(c)))
            && Contents(r.log.dispatched) == Contents(s.log.dispatched) + Letters(s.w.arrivals[..k], c.readBufferSize)
            && |Spoken(t.log.events)| == |Spoken(s.log.events)| + k
            && r.log.dispatched == t.log.dispatched && (r.closed <==> error.Some?)
            && Spoken(r.log.events) == Spoken(t.log.events) +
                 (if error.Some? then [Exception(error.value), Inactive] else if k > 0 then [ReadComplete] else [])
            && (error.None? ==> Queueing(c, p, t, r) && Still(t, r))
  {
    hide Core; hide Rounds; hide Fire; hide Contents; hide Letters; hide Good; hide GoodPrefix; hide Failing; hide ReadReady;
    hide Tame; hide Polite; hide ReadLoop; hide Ended; hide Spoken; hide Queueing; hide Read;
    CoreOpen(c, s);
    k := ReadLoopExact(c, s, ReadLimit(c), false);
    RoundsGrow(c, s, ReadLimit(c), false);
    TameRounds(c, p, s, ReadLimit(c), false);
    ReadReadyIs(c, s, k);
    var (t, error) := HandedOn(c, s);
    QueueingScript(c, p, s, t);
    ContentsLength(s.log.dispatched, t.log.dispatched, s.w.arrivals[..k], c.readBufferSize);
    match error
    case Some(e) => TameFails(c, t, e);
    case None => TameEnds(c, p, t, k);
  }

  lemma ContentsLength(xs: seq<Inbound>, ys: seq<Inbound>, zs: seq<Arrival>, size: nat)
    requires forall i :: 0 <= i < |zs| ==> Good(zs[i])
    requires Contents(ys) == Contents(xs) + Letters(zs, size)
    ensures |ys| == |xs| + |zs|
  {
    hide Opened;
    assert |Contents(ys)| == |ys| && |Contents(xs)| == |xs| && |Letters(zs, size)| == |zs|;
  }

  lemma TameEnds(c: Config, p: bool, t: State, k: nat)
    requires !t.closed && Tame(t.w.script) && (p ==> Polite(c, t.w.script)) && c.hasChannel
    ensures var r := if k > 0 then Fire(c, t, ReadComplete) else t;
            && !r.closed && r.log.dispatched == t.log.dispatched && Queueing(c, p, t, r) && Still(t, r)
            && Spoken(r.log.events) == Spoken(t.log.events) + (if k > 0 then [ReadComplete] else [])
  {
    hide Fire; hide Tame; hide Polite; hide Spoken; hide Sendable;
    NothingQueued(c, p, t, t);
    assert Spoken(t.log.events) + [] == Spoken(t.log.events);
    if k > 0 {
      TameFire(c, p, t, ReadComplete);
      ToldQueueing(c, p, t, ReadComplete);
      QueueingTrans(c, p, t, Emit(t, ReadComplete), Fire(c, t, ReadComplete));
    }
  }

  lemma ToldQueueing(c: Config, p: bool, t: State, x: Event)
    requires !t.closed
    ensures Queueing(c, p, t, Emit(t, x))
  {
    assert Since(t, Emit(t, x)) == [];
  }

  /** A failure with such handlers: told, then the end, and nothing else but the flag. */
  lemma TameFails(c: Config, t: State, e: Error)
    requires Core(c, t) && !t.closed && Tame(t.w.script) && c.hasChannel
    ensures var r := Failing(c, t, e);
            && r.closed && r.log.dispatched == t.log.dispatched && r.log.sent == t.log.sent
            && Spoken(r.log.events) == Spoken(t.log.events) + [Exception(e), Inactive]
  {
    hide Fire; hide Tame; hide Polite; hide Close; hide Core; hide Base; hide Framed;
    TameFire(c, false, t, Exception(e));
    var u := Fire(c, t, Exception(e));
    CoreOpen(c, t);
    FireFramed(c, t, Exception(e));
    BaseSound(c, t, u);
    CloseExact(c, u);
    ClosingSpoken(u.log.events, c.hasChannel && u.writable);
    assert Spoken(t.log.events) + [Exception(e), Inactive] == Spoken(t.log.events) + [Exception(e)] + [Inactive];
  }

  lemma BaseSound(c: Config, s: State, r: State)
    requires Base(c, s, r) && Sound(s)
    ensures Sound(r)
  {
  }

  lemma ClosingSpoken(events: seq<Event>, falls: bool)
    ensures Spoken(events + (if falls then [WritabilityChanged(false)] else []) + [Inactive]) == Spoken(events) + [Inactive]
  {
    SpokenAppend(events, WritabilityChanged(false));
    SpokenAppend(events, Inactive);
    SpokenAppend(events + [WritabilityChanged(false)], Inactive);
    assert events + [] == events;
  }
}
