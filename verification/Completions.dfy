/** What a report of the poller does on an open completion endpoint. */
module Completions {
  import opened Wrappers
  import opened Addresses
  import opened World
  import opened EndpointState
  import opened EndpointSpec
  import opened Receiving
  import opened Frames
  import opened Preservation
  import opened References
  import opened Resting
  import opened History
  import opened Announcements
  import opened Lifecycle
  import opened TameHandlers

  // ---- reading on ----

  /** A successful submission leaves a read outstanding, if the endpoint is open and can allocate. */
  lemma SubmitReadProgress(c: Config, s: State)
    requires SubmitRead(c, s).error.None?
    ensures var r := SubmitRead(c, s).s; r.closed || !c.hasAllocator || r.readPending
  {
    hide AcquireBuf; hide Discard;
  }

  /** The next read is submitted, and if that fails the endpoint is closed. */
  ghost function ReadingOn(c: Config, s: State): State {
    if s.closed || !s.w.autoRead then s else
      var o := SubmitRead(c, s);
      if o.error.Some? then Failing(c, o.s, o.error.value) else o.s
  }

  lemma ReadingOnKeeps(c: Config, s: State)
    requires Core(c, s) && c.mode == Completion
    ensures var r := ReadingOn(c, s);
            && Past(s.log, r) && r.log.dispatched == s.log.dispatched
            && (r.closed || !r.w.autoRead || !c.hasAllocator || r.readPending)
            && (r.closed || r.log == s.log)
  {
    hide Core; hide SubmitRead; hide Failing; hide Framed; hide Past; hide Before;
    SamePast(s, s);
    if !s.closed && s.w.autoRead {
      var o := SubmitRead(c, s);
      SubmitReadKeeps(c, s);
      if o.error.Some? { FailKeeps(c, o.s, o.error.value); PastTrans(s.log, o.s, ReadingOn(c, s)); }
      else { SubmitReadProgress(c, s); }
    }
  }

  lemma SubmitReadKeeps(c: Config, s: State)
    requires Core(c, s) && !s.closed && c.mode == Completion
    ensures var r := SubmitRead(c, s).s; Core(c, r) && r.log == s.log && Past(s.log, r) && r.closed == s.closed
  {
    hide Core; hide SubmitRead; hide Invariant;
    CoreInvariant(c);
    SubmitReadPreserves(c, s => Core(c, s), s);
    SubmitReadLog(c, s);
    SamePast(s, SubmitRead(c, s).s);
  }

  lemma SubmitReadLog(c: Config, s: State)
    ensures SubmitRead(c, s).s.log == s.log && SubmitRead(c, s).s.closed == s.closed
  {
    hide OfferRead; hide AcquireBuf;
    if !s.closed && !s.readPending && c.hasAllocator && AcquireBuf(s.w).1.Some? {
      OfferReadFields(s.(w := AcquireBuf(s.w).0), AcquireBuf(s.w).1.value);
    }
  }

  /** A failure of a completion endpoint: told first, then closed; nothing is handed on. */
  lemma FailKeeps(c: Config, s: State, e: Error)
    requires Core(c, s)
    ensures var r := Failing(c, s, e);
            && r.closed && Core(c, r) && Past(Before(c, s, Exception(e)).log, r) && Past(s.log, r)
            && (c.mode == Completion ==> r.log.dispatched == s.log.dispatched)
  {
    hide Core; hide Fire; hide Close; hide Framed; hide Base; hide Past;
    FailGrows(c, s, e);
    BeforePast(c, s, e, Failing(c, s, e));
    CoreOpen(c, s);
    FireFramed(c, s, Exception(e));
    var t := Fire(c, s, Exception(e));
    BaseDispatched(c, s, t);
    CloseFramed(c, t);
    FramedBase(c, t, Close(c, t).s);
    BaseDispatched(c, t, Close(c, t).s);
  }

  lemma BeforePast(c: Config, s: State, e: Error, r: State)
    requires Past(Before(c, s, Exception(e)).log, r)
    ensures Past(s.log, r)
  {
  }

  lemma BaseDispatched(c: Config, s: State, r: State)
    requires Base(c, s, r)
    ensures c.mode == Completion ==> r.log.dispatched == s.log.dispatched
    ensures Sound(s) ==> Sound(r)
  {
  }

  // ---- a report about a read ----

  /** The report's buffer, its data and their sender. */
  function Delivered(s: State, data: seq<Byte>, from: SocketAddress): Inbound
    requires s.w.pendingReads != []
  {
    Inbound(Buf(s.w.pendingReads[0], data), from)
  }

  /** The state once the handlers have been told of the data, and then once they have been told that this is all. */
  ghost function Seen(c: Config, s: State, data: seq<Byte>, from: SocketAddress): State
    requires s.w.pendingReads != [] && c.hasChannel
  {
    FireChannelRead(c, ReadReturned(s), Delivered(s, data, from))
  }

  /** After the handlers have been told of the data, they are told that this is all, and the endpoint reads on. */
  lemma AfterDelivery(c: Config, s: State, data: seq<Byte>, from: SocketAddress)
    requires Core(c, s) && c.mode == Completion && c.hasChannel && !s.closed && s.w.pendingReads != []
    requires |data| > 0 && from.family != Unspecified
    ensures var t := Seen(c, s, data, from);
            var u := Fire(c, t, ReadComplete);
            var r := HandleReadCompletion(c, s, data, from, None);
            && Core(c, t) && Core(c, u) && r == ReadingOn(c, u)
            && Past(t.log, r) && t.log.events + [ReadComplete] <= r.log.events
  {
    hide Core; hide Fire; hide FireChannelRead; hide ReadReturned; hide SubmitRead; hide Close; hide Past; hide Invariant;
    CoreStep(c, ReturnRead, s);
    ReturnedHand(s);
    CoreInvariant(c);
    FireChannelReadPreserves(c, s => Core(c, s), ReadReturned(s), Delivered(s, data, from));
    var t := Seen(c, s, data, from);
    FireGrows(c, t, ReadComplete);
    var u := Fire(c, t, ReadComplete);
    ReadingOnKeeps(c, u);
    TellPast(c, t, ReadComplete, u, ReadingOn(c, u));
    DeliveredIs(c, s, data, from);
  }

  lemma DeliveredIs(c: Config, s: State, data: seq<Byte>, from: SocketAddress)
    requires c.hasChannel && !s.closed && s.w.pendingReads != [] && |data| > 0 && from.family != Unspecified
    ensures HandleReadCompletion(c, s, data, from, None) == ReadingOn(c, Fire(c, Seen(c, s, data, from), ReadComplete))
  {
    hide Fire; hide FireChannelRead; hide SubmitRead; hide Close; hide Discard;
  }

  lemma TellPast(c: Config, t: State, x: Event, u: State, r: State)
    requires c.hasChannel && Past(Before(c, t, x).log, u) && Past(u.log, r)
    ensures Past(t.log, r) && t.log.events + [x] <= r.log.events
  {
  }

  /**
   * Data from a known sender: exactly this datagram is handed on, the next thing the handlers hear is of it, in its
   * buffer and from its sender, and then that it was all.
   */
  lemma ReadDelivers(c: Config, s: State, data: seq<Byte>, from: SocketAddress) returns (e: Event)
    requires Core(c, s) && c.mode == Completion && c.hasChannel && !s.closed && s.w.pendingReads != []
    requires |data| > 0 && from.family != Unspecified
    ensures var m := Inbound(Buf(s.w.pendingReads[0], data), from);
            var r := HandleEvent(c, s, ReadDone(data, from, None));
            && r.log.dispatched == s.log.dispatched + [m]
            && Tells(c, e, m) && s.log.events + [e] <= r.log.events
            && Seen(c, s, data, from).log.events + [ReadComplete] <= r.log.events
            && s.log.events + [e] <= Seen(c, s, data, from).log.events
  {
    hide Core; hide Fire; hide HandleReadCompletion; hide Arrived; hide RunHandler; hide Framed; hide Given; hide Refs;
    hide Base; hide Tells;
    var m := Delivered(s, data, from);
    AfterDelivery(c, s, data, from);
    var s1 := ReadReturned(s);
    CoreStep(c, ReturnRead, s);
    ReturnedHand(s);
    e := ArrivedTells(c, s1, m);
    ArrivedCore(c, s1, m);
    RunHandlerGrows(c, Arrived(c, s1, m));
    var t := Seen(c, s, data, from);
    var u := Fire(c, t, ReadComplete);
    SeenDispatched(c, s, data, from);
    CoreOpen(c, t);
    FireFramed(c, t, ReadComplete);
    BaseDispatched(c, t, u);
    ReadingOnKeeps(c, u);
  }

  lemma SeenDispatched(c: Config, s: State, data: seq<Byte>, from: SocketAddress)
    requires Core(c, s) && c.mode == Completion && c.hasChannel && !s.closed && s.w.pendingReads != []
    ensures Seen(c, s, data, from).log.dispatched == s.log.dispatched + [Delivered(s, data, from)]
  {
    hide Core; hide FireChannelRead; hide Framed; hide Base; hide Refs;
    var m := Delivered(s, data, from);
    CoreOpen(c, s);
    var s1 := ReadReturned(s);
    FireChannelReadFramed(c, s1, m);
    FramedBase(c, Given(s1, Refs([m]), [m]), FireChannelRead(c, s1, m));
    BaseDispatched(c, Given(s1, Refs([m]), [m]), FireChannelRead(c, s1, m));
  }

  /**
   * If handlers neither flush, read nor close, that is all they hear of it, unless a new read cannot be submitted.
   */
  lemma TameReadDelivers(c: Config, s: State, data: seq<Byte>, from: SocketAddress) returns (e: Event)
    requires Core(c, s) && c.mode == Completion && c.hasChannel && !s.closed && s.w.pendingReads != []
    requires |data| > 0 && from.family != Unspecified && Tame(s.w.script)
    ensures var r := HandleEvent(c, s, ReadDone(data, from, None));
            && Tells(c, e, Inbound(Buf(s.w.pendingReads[0], data), from))
            && (!r.closed ==> Spoken(r.log.events) == Spoken(s.log.events) + [e, ReadComplete])
  {
    hide Core; hide HandleReadCompletion; hide Fire; hide Seen; hide ReadingOn; hide Tells; hide Tame; hide Polite;
    hide OnlyQueues; hide Past;
    AfterDelivery(c, s, data, from);
    e := TameSeen(c, s, data, from);
    var t := Seen(c, s, data, from);
    TameFire(c, false, t, ReadComplete);
    QueuesOn(c, false, Emit(t, ReadComplete), Fire(c, t, ReadComplete));
    ReadingOnKeeps(c, Fire(c, t, ReadComplete));
    assert Spoken(s.log.events) + [e, ReadComplete] == Spoken(s.log.events) + [e] + [ReadComplete];
  }

  lemma TameSeen(c: Config, s: State, data: seq<Byte>, from: SocketAddress) returns (e: Event)
    requires c.hasChannel && !s.closed && s.w.pendingReads != [] && Tame(s.w.script)
    ensures var t := Seen(c, s, data, from);
            && Tells(c, e, Delivered(s, data, from)) && !t.closed && Tame(t.w.script)
            && Spoken(t.log.events) == Spoken(s.log.events) + [e]
  {
    hide Arrived; hide RunHandler; hide Names; hide Tame; hide Polite; hide OnlyQueues;
    var s1, m := ReadReturned(s), Delivered(s, data, from);
    e := ArrivedTells(c, s1, m);
    SpokenAppend(s.log.events, e);
    TameRun(c, false, Arrived(c, s1, m));
    QueuesOn(c, false, Arrived(c, s1, m), Seen(c, s, data, from));
  }

  /** A report without data, or without a sender: nobody is told, and the buffer's reference is given up. */
  lemma ReadDropped(c: Config, s: State, data: seq<Byte>, from: SocketAddress)
    requires Core(c, s) && Conserved(s) && c.mode == Completion && c.hasChannel && !s.closed && s.w.pendingReads != []
    requires |data| == 0 || from.family == Unspecified
    ensures var r := HandleEvent(c, s, ReadDone(data, from, None));
            var b := BufRef(s.w.pendingReads[0]);
            && r.log.dispatched == s.log.dispatched && Past(s.log, r)
            && (r.closed || (r.log == s.log && s.w.refs[b] > 0 && r.w.refs[b] == s.w.refs[b] - 1 && r.w.held == s.w.held))
  {
    hide Core; hide Past; hide Conserved; hide ReadingOn; hide ReadReturned; hide LoseRef; hide HandleReadCompletion;
    var id := s.w.pendingReads[0];
    var t := LoseRef(ReadReturned(s), id);
    DroppedCore(c, s);
    ReadingOnKeeps(c, t);
    DroppedIs(c, s, data, from);
    LostRef(s);
    if !ReadingOn(c, t).closed { ReadingOnRefs(c, t, BufRef(id)); }
  }

  lemma DroppedCore(c: Config, s: State)
    requires Core(c, s) && s.w.pendingReads != []
    ensures Core(c, LoseRef(ReadReturned(s), s.w.pendingReads[0]))
  {
    hide Core; hide ReadReturned; hide Discard;
    CoreStep(c, ReturnRead, s);
    ReturnedHand(s);
    CoreStep(c, Hold(DiscardOne(s.w.pendingReads[0])), ReadReturned(s));
  }

  lemma DroppedIs(c: Config, s: State, data: seq<Byte>, from: SocketAddress)
    requires c.hasChannel && !s.closed && s.w.pendingReads != [] && (|data| == 0 || from.family == Unspecified)
    ensures HandleReadCompletion(c, s, data, from, None) == ReadingOn(c, LoseRef(ReadReturned(s), s.w.pendingReads[0]))
  {
    hide Fire; hide FireChannelRead; hide SubmitRead; hide Close; hide Discard;
  }

  lemma LostRef(s: State)
    requires Conserved(s) && s.w.pendingReads != []
    ensures var id := s.w.pendingReads[0];
            var t := LoseRef(ReadReturned(s), id);
            && s.w.refs[BufRef(id)] > 0 && t.w.refs[BufRef(id)] == s.w.refs[BufRef(id)] - 1
            && t.w.held == s.w.held && t.log == s.log && id < t.w.nextBuf
  {
    hide QueueRefs;
    var id := s.w.pendingReads[0];
    assert Bufs(s.w.pendingReads)[0] == BufRef(id);
    assert BufRef(id) in Outstanding(s.w);
    KnownBuf(s.w, id);
  }

  /** Reading on touches only a new buffer. */
  lemma ReadingOnRefs(c: Config, s: State, b: Resource)
    requires Core(c, s) && c.mode == Completion
    requires b.BufRef? && b.id < s.w.nextBuf && !ReadingOn(c, s).closed
    ensures ReadingOn(c, s).w.refs[b] == s.w.refs[b] && ReadingOn(c, s).w.held == s.w.held
  {
    hide Core; hide Failing; hide SubmitRead; hide Past; hide Before;
    if !s.closed && s.w.autoRead {
      var o := SubmitRead(c, s);
      SubmitReadKeeps(c, s);
      if o.error.Some? { FailGrows(c, o.s, o.error.value); } else { SubmitReadRefs(c, s, b); }
    }
  }

  lemma SubmitReadRefs(c: Config, s: State, b: Resource)
    requires b.BufRef? && b.id < s.w.nextBuf
    ensures SubmitRead(c, s).s.w.refs[b] == s.w.refs[b] && SubmitRead(c, s).s.w.held == s.w.held
  {
    hide AcquireBuf; hide OfferRead;
    AcquireRefs(s.w, b);
    var (w, got) := AcquireBuf(s.w);
    if got.Some? { OfferReadRefs(s.(w := w), got.value, b); }
  }

  lemma AcquireRefs(w: World, b: Resource)
    requires b.BufRef? && b.id < w.nextBuf
    ensures var (r, got) := AcquireBuf(w);
            r.refs[b] == w.refs[b] && r.held == w.held && (got.Some? ==> got.value == w.nextBuf)
  {
  }

  lemma OfferReadRefs(s: State, id: nat, b: Resource)
    requires b != BufRef(id)
    ensures OfferRead(s, id).s.w.refs[b] == s.w.refs[b] && OfferRead(s, id).s.w.held == s.w.held
  {
  }

  /** A failed read is told, and closes the endpoint; nothing is handed on. */
  lemma ReadFails(c: Config, s: State, data: seq<Byte>, from: SocketAddress, error: Error)
    requires Core(c, s) && c.mode == Completion && c.hasChannel && !s.closed && s.w.pendingReads != []
    ensures var r := HandleEvent(c, s, ReadDone(data, from, Some(error)));
            && r.closed && r.log.dispatched == s.log.dispatched && s.log.events + [Exception(error)] <= r.log.events
  {
    hide Core; hide Fire; hide Close; hide ReadReturned; hide Discard;
    DroppedCore(c, s);
    FailKeeps(c, LoseRef(ReadReturned(s), s.w.pendingReads[0]), error);
    ReturnedLog(s);
  }

  lemma ReturnedLog(s: State)
    ensures s.w.pendingReads != [] ==> ReadReturned(s).log == s.log && ReadReturned(s).closed == s.closed
    ensures s.w.pendingWrites != [] ==> WriteReturned(s).log == s.log && WriteReturned(s).closed == s.closed
  {
  }

  /** Whatever was reported and whatever handlers do, the endpoint then reads on, unless it is closed or must not. */
  lemma ReadGoesOn(c: Config, s: State, data: seq<Byte>, from: SocketAddress, error: Option<Error>)
    requires Core(c, s) && c.mode == Completion && c.hasChannel && !s.closed && s.w.pendingReads != []
    ensures var r := HandleEvent(c, s, ReadDone(data, from, error));
            r.closed || !r.w.autoRead || !c.hasAllocator || r.readPending
  {
    hide Core; hide HandleReadCompletion; hide ReadingOn; hide Past; hide Fire; hide LoseRef; hide ReadReturned;
    if error.Some? { ReadFails(c, s, data, from, error.value); }
    else if |data| > 0 && from.family != Unspecified {
      AfterDelivery(c, s, data, from);
      ReadingOnKeeps(c, Fire(c, Seen(c, s, data, from), ReadComplete));
    } else {
      DroppedCore(c, s);
      DroppedIs(c, s, data, from);
      ReadingOnKeeps(c, LoseRef(ReadReturned(s), s.w.pendingReads[0]));
    }
  }

  /** The application's own request: a read is outstanding afterwards, or the reason why not is reported. */
  lemma ReadSubmits(c: Config, s: State)
    requires c.mode == Completion && Read(c, s).error.None?
    ensures var r := Read(c, s).s; !c.hasAllocator || r.readPending
  {
    hide SubmitRead;
    SubmitReadProgress(c, s);
    SubmitReadLog(c, s);
  }

  // ---- a report about a write ----

  /** A failed write is told, and closes the endpoint. */
  lemma WriteFails(c: Config, s: State, error: Error)
    requires Core(c, s) && c.mode == Completion && !s.closed && s.w.pendingWrites != []
    ensures var r := HandleEvent(c, s, WriteDone(Some(error)));
            r.closed && (c.hasChannel ==> s.log.events + [Exception(error)] <= r.log.events)
  {
    hide Core; hide Fire; hide Close; hide WriteReturned; hide Discard; hide Invariant;
    CoreInvariant(c);
    WriteReturnPreserves(c, s => Core(c, s), s);
    FailKeeps(c, LoseRef(WriteReturned(s), s.w.pendingWrites[0].payload.id), error);
    ReturnedLog(s);
  }

  /**
   * A successful write takes its datagram off the queue. If that was the last, the handlers hear that everything has
   * been flushed, and otherwise the next is submitted, or the endpoint closed.
   */
  lemma WriteAdvances(c: Config, s: State)
    requires Core(c, s) && c.mode == Completion && !s.closed && s.w.pendingWrites != []
    ensures var r, t := HandleEvent(c, s, WriteDone(None)), Advanced(c, s);
            && s.queue != [] && s.log.gone + [s.queue[0]] <= t.log.gone && Past(t.log, r)
            && (t.queue == [] && c.hasChannel ==> t.log.events + [FlushComplete] <= r.log.events)
            && (t.queue != [] ==> r.closed || r.writePending)
  {
    hide Core; hide Dequeue; hide HandleWriteCompletion; hide Advanced; hide Past;
    AdvancedKeeps(c, s);
    WriteEnds(c, s, Advanced(c, s));
    AdvancedIs(c, s);
  }

  lemma AdvancedKeeps(c: Config, s: State)
    requires Core(c, s) && c.mode == Completion && !s.closed && s.w.pendingWrites != []
    ensures s.queue != [] && Core(c, Advanced(c, s)) && s.log.gone + [s.queue[0]] <= Advanced(c, s).log.gone
  {
    hide UpdateWritability; hide Settled; hide Popped; hide WriteReturned; hide LoseRef;
    CoreStep(c, CompleteWrite, s);
    ReturnedQueue(s);
    var u := Popped(LoseRef(WriteReturned(s), s.w.pendingWrites[0].payload.id));
    assert Core(c, Settled(c, u));
    UpdateGrows(c, u);
    SettledGrows(c, u);
    CompletedGone(s);
  }

  lemma CompletedGone(s: State)
    requires s.w.pendingWrites != [] && s.queue != []
    ensures WriteCompleted(s).log.gone == s.log.gone + [s.queue[0]]
  {
    hide ReleaseAll;
  }

  /** What follows once the written datagram is off the queue. */
  ghost function WritingOn(c: Config, t: State): State {
    if t.queue != [] then
      var o := SubmitWrite(c, t);
      if o.error.Some? then Failing(c, o.s, o.error.value) else o.s
    else Fire(c, t, FlushComplete)
  }

  lemma AdvancedIs(c: Config, s: State)
    requires !s.closed && s.w.pendingWrites != []
    ensures HandleWriteCompletion(c, s, None) == WritingOn(c, Advanced(c, s))
  {
    hide Dequeue; hide SubmitWrite; hide Fire; hide Close; hide WriteReturned; hide Discard;
  }

  lemma WriteEnds(c: Config, s: State, t: State)
    requires Core(c, t) && c.mode == Completion
    ensures var r := WritingOn(c, t);
            && Past(t.log, r)
            && (t.queue == [] && c.hasChannel ==> t.log.events + [FlushComplete] <= r.log.events)
            && (t.queue != [] ==> r.closed || r.writePending)
  {
    hide Core; hide SubmitWrite; hide Fire; hide Failing; hide Invariant; hide Before;
    if t.queue == [] {
      FireGrows(c, t, FlushComplete);
      FlushedPast(c, t, Fire(c, t, FlushComplete));
    } else {
      RememberingInvariant(c, t.log);
      SamePast(t, t);
      SubmitWritePreserves(c, Remembering(c, t.log), t);
      var o := SubmitWrite(c, t);
      if o.error.Some? { FailKeeps(c, o.s, o.error.value); PastTrans(t.log, o.s, WritingOn(c, t)); }
      else { SubmitMakesProgress(c, t); SubmitQueue(c, t); }
    }
  }

  lemma FlushedPast(c: Config, t: State, r: State)
    requires Past(Before(c, t, FlushComplete).log, r)
    ensures Past(t.log, r) && (c.hasChannel ==> t.log.events + [FlushComplete] <= r.log.events)
  {
  }

  lemma SubmitQueue(c: Config, s: State)
    ensures SubmitWrite(c, s).s.queue == s.queue
  {
    hide ToSocketAddress;
  }

  /** The poller's last word closes the endpoint. */
  lemma CloseDoneCloses(c: Config, s: State)
    requires c.mode == Completion && Sound(s)
    ensures HandleEvent(c, s, CloseDone) == Close(c, s).s && HandleEvent(c, s, CloseDone).closed
  {
    hide Close; hide Framed;
    CloseFramed(c, s);
  }
}
