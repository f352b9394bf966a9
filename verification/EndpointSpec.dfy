/**
 * The operations of endpoint.go as functions of the endpoint's state. Handlers run in the middle of an
 * operation and may call back into the endpoint; they act out the list `script`, whatever it says.
 */
module EndpointSpec {
  import opened Wrappers
  import opened Addresses
  import opened World
  import opened EndpointState

  // ---- handlers ----

  /** One action of a handler; it can only write what it holds. */
  ghost function React(c: Config, s: State, action: Reaction): (r: State)
    ensures |r.w.script| <= |s.w.script| && Work(r) <= Work(s) + 1
    decreases Work(s) + 1, |s.w.script|, 12
  {
    hide Handle; hide Owns; hide Write; hide Flush; hide Read; hide Close;
    match action
    case DoWrite(m) => if Owns(s.w, m) then Write(c, s, m).s else s
    case DoFlush => Flush(c, s).s
    case DoRead => if s.log.reading && c.mode != Completion then s else Read(c, s).s
    case DoClose => Close(c, s).s
    case _ => s.(w := Handle(s.w, action))
  }

  /** One callback: the handlers act until the script says `Return`, or ends. */
  ghost function RunHandler(c: Config, s: State): (r: State)
    ensures |r.w.script| <= |s.w.script| && Work(r) <= Work(s)
    decreases Work(s), |s.w.script|, 0
  {
    if s.w.script == [] then s else
      var s1 := s.(w := s.w.(script := s.w.script[1..]));
      if s.w.script[0] == Return then s1 else RunHandler(c, React(c, s1, s.w.script[0]))
  }

  ghost function Fire(c: Config, s: State, e: Event): (r: State)
    ensures |r.w.script| <= |s.w.script| && Work(r) <= Work(s)
    decreases Work(s), |s.w.script|, 1
  {
    if c.hasChannel then RunHandler(c, Emit(s, e)) else s
  }

  /** `fireWritabilityChanged`; `Toggle` has recorded the event. */
  ghost function Notify(c: Config, s: State): (r: State)
    ensures |r.w.script| <= |s.w.script| && Work(r) <= Work(s)
    decreases Work(s), |s.w.script|, 1
  {
    if c.hasChannel then RunHandler(c, s) else s
  }

  ghost function CloseWritability(c: Config, s: State): (r: State)
    ensures |r.w.script| <= |s.w.script| && Work(r) <= Work(s)
    decreases Work(s), |s.w.script|, 2
  {
    if s.writable then Notify(c, Toggle(c, s, false)) else s
  }

  ghost function UpdateWritability(c: Config, s: State): (r: State)
    ensures |r.w.script| <= |s.w.script| && Work(r) <= Work(s)
    decreases Work(s), |s.w.script|, 3
  {
    if s.closed then CloseWritability(c, s)
    else if s.writable && s.bytes >= c.high then Notify(c, Toggle(c, s, false))
    else if !s.writable && s.bytes <= c.low then Notify(c, Toggle(c, s, true))
    else s
  }

  // ---- the queue ----

  ghost function Enqueue(c: Config, s: State, d: Datagram): (r: State)
    ensures |r.w.script| <= |s.w.script| && Work(r) <= Work(s) + 1
    decreases Work(s) + 1, |s.w.script|, 4
  {
    UpdateWritability(c, Appended(s, d))
  }

  ghost function Dequeue(c: Config, s: State): (r: State)
    ensures |r.w.script| <= |s.w.script| && Work(r) <= Work(s)
    ensures s.queue != [] ==> Work(r) < Work(s)
    ensures s.queue == [] ==> r == s
    decreases Work(s), |s.w.script|, 4
  {
    if s.queue == [] then s else UpdateWritability(c, Popped(s))
  }

  /** `releaseOutbound` */
  ghost function ReleaseOutbound(c: Config, s: State): (r: State)
    ensures |r.w.script| <= |s.w.script| && Work(r) <= Work(s)
    decreases Work(s), |s.w.script|, 5
  {
    if s.queue == [] then s.(spare := 0) else ReleaseOutbound(c, Dequeue(c, s))
  }

  // ---- the interface ----

  function RequestedDatagram(c: Config, m: Message): Option<Datagram> {
    match m
    case DatagramMessage(p, a, e) => if p.Some? && a.Valid() then Some(Datagram(p.value, a, e)) else None
    case BufMessage(b) => if c.remote.Valid() then Some(Datagram(b, c.remote, None)) else None
    case _ => None
  }

  ghost function Write(c: Config, s: State, m: Message): (o: Outcome)
    ensures |o.s.w.script| <= |s.w.script| && Work(o.s) <= Work(s) + 1
    decreases Work(s) + 1, |s.w.script|, 5
  {
    match RequestedDatagram(c, m)
    case None => Outcome(s.(w := DropAll(s.w, MessageOwned(m))), Some(ErrInvalidDatagram))
    case Some(d) =>
      if s.closed then Outcome(s.(w := DropAll(s.w, Owned(d))), Some(ErrServerClosed))
      else Outcome(Enqueue(c, s, d), None)
  }

  ghost function Flush(c: Config, s: State): (o: Outcome)
    ensures |o.s.w.script| <= |s.w.script| && Work(o.s) <= Work(s)
    decreases Work(s), |s.w.script|, 8
  {
    if s.closed then Outcome(s, Some(ErrServerClosed))
    else if c.mode == Completion then SubmitWrite(c, s)
    else FlushOutbound(c, s)
  }

  ghost function Read(c: Config, s: State): (o: Outcome)
    ensures |o.s.w.script| <= |s.w.script| && Work(o.s) <= Work(s)
    decreases Work(s), |s.w.script|, 11
  {
    if s.closed then Outcome(s, Some(ErrServerClosed))
    else if c.mode == Completion then SubmitRead(c, s)
    else Outcome(ReadReady(c, s), None)
  }

  ghost function Close(c: Config, s: State): (o: Outcome)
    ensures |o.s.w.script| <= |s.w.script| && Work(o.s) <= Work(s)
    decreases Work(s), |s.w.script|, 7
  {
    if s.closed then Outcome(s, None) else
      var s1 := CloseWritability(c, s.(closed := true));
      var s2 := CloseResources(c, ReleaseOutbound(c, s1));
      Outcome(FireInactiveOnce(c, s2), if c.closeFails || (c.hasAllocator && c.allocatorCloseFails) then Some(ErrClose) else None)
  }

  /** `closeFD` and the allocator's Close. */
  ghost function CloseResources(c: Config, s: State): State {
    s.(log := s.log.(fdCloses := s.log.fdCloses + 1,
                     allocatorCloses := if c.hasAllocator then s.log.allocatorCloses + 1 else s.log.allocatorCloses))
  }

  ghost function FireInactiveOnce(c: Config, s: State): (r: State)
    ensures |r.w.script| <= |s.w.script| && Work(r) <= Work(s)
    decreases Work(s), |s.w.script|, 2
  {
    if s.inactiveFired then s else Fire(c, s.(inactiveFired := true), Inactive)
  }

  // ---- readiness mode: sending ----

  datatype LoopEnd = Drained | Blocked | SendFailed(error: Error)

  ghost function DequeueN(c: Config, s: State, n: nat): (r: State)
    ensures |r.w.script| <= |s.w.script| && Work(r) <= Work(s)
    ensures n > 0 && s.queue != [] ==> Work(r) < Work(s)
    ensures s.queue == [] ==> r == s
    decreases Work(s), |s.w.script|, 5, n
  {
    if n == 0 then s else DequeueN(c, Dequeue(c, s), n - 1)
  }

  /** The loop of `flushOutbound`, sending at most `size` datagrams a call. */
  ghost function FlushLoop(c: Config, size: nat, s: State): (r: (State, LoopEnd))
    requires size > 0
    ensures |r.0.w.script| <= |s.w.script| && Work(r.0) <= Work(s)
    ensures r.1 == Drained ==> r.0.queue == []
    decreases Work(s), |s.w.script|, 6
  {
    if s.queue == [] then (s, Drained) else
      var batch := s.queue[..Min(size, |s.queue|)];
      var sent := SendBatch(c.linux, c.ifaces, batch, s.w.sends);
      var s1 := Batched(s, sent);
      if sent.error.Some? then (s1, SendFailed(sent.error.value)) else
        var s2 := DequeueN(c, s1, sent.sent);
        if sent.again || sent.sent < |batch| then (s2, Blocked) else FlushLoop(c, size, s2)
  }

  ghost function EnableWriteInterest(c: Config, s: State): (o: Outcome)
    ensures o.s.queue == s.queue && o.s.w.script == s.w.script
  {
    if c.mode == NoLoop || s.writeInterest then Outcome(s, None)
    else Outcome(Interested(s, true), if NextAnswer(s.w) == Accepted then None else Some(ErrPoller))
  }

  ghost function DisableWriteInterest(c: Config, s: State): (o: Outcome)
    ensures o.s.queue == s.queue && o.s.w.script == s.w.script
  {
    if c.mode == NoLoop || !s.writeInterest then Outcome(s, None)
    else Outcome(Interested(s, false), if NextAnswer(s.w) == Rejected then Some(ErrPoller) else None)
  }

  ghost function StartLoop(s: State): (r: State)
    ensures r.w == s.w && r.queue == s.queue
  {
    s.(log := s.log.(depth := s.log.depth + 1, nested := s.log.nested || s.log.depth > 0))
  }

  ghost function EndLoop(s: State): (r: State)
    ensures r.w == s.w && r.queue == s.queue
  {
    s.(log := s.log.(depth := s.log.depth - 1))
  }

  ghost function FlushOutbound(c: Config, s: State): (o: Outcome)
    ensures |o.s.w.script| <= |s.w.script| && Work(o.s) <= Work(s)
    decreases Work(s), |s.w.script|, 7
  {
    hide EnableWriteInterest; hide DisableWriteInterest;
    var (s1, end) := FlushLoop(c, MAX_WRITE_BATCH, StartLoop(s));
    match end
    case SendFailed(e) => Outcome(EndLoop(s1), Some(e))
    case Blocked => var o := EnableWriteInterest(c, s1); Outcome(EndLoop(o.s), o.error)
    case Drained =>
      var o := DisableWriteInterest(c, s1);
      if o.error.Some? then Outcome(EndLoop(o.s), o.error)
      else Outcome(Fire(c, EndLoop(o.s), FlushComplete), None)
  }

  // ---- readiness mode: receiving ----

  /** Buffer and, if pooled, envelope pass to the handlers, which are told. */
  ghost function Arrived(c: Config, s: State, m: Inbound): (r: State)
    ensures r.w.script == s.w.script && r.queue == s.queue
  {
    var s1 := s.(w := HandOver(s.w, BufRef(m.payload.id)));
    if c.pooled then Announced(s1.(w := AcquireEnvelope(s1.w).0), m, Some(AcquireEnvelope(s1.w).1))
    else Announced(s1, m, None)
  }

  /** `fireChannelRead` */
  ghost function FireChannelRead(c: Config, s: State, m: Inbound): (r: State)
    requires c.hasChannel
    ensures |r.w.script| <= |s.w.script| && Work(r) <= Work(s)
    decreases Work(s), |s.w.script|, 2
  {
    RunHandler(c, Arrived(c, s, m))
  }

  /** Hands on one batch; once a handler has closed the endpoint the rest is released. */
  ghost function Dispatch(c: Config, s: State, ms: seq<Inbound>, any: bool): (r: (State, bool))
    requires c.hasChannel
    ensures |r.0.w.script| <= |s.w.script| && Work(r.0) <= Work(s)
    decreases Work(s), |s.w.script|, 3, |ms|
  {
    if ms == [] then (s, any)
    else if s.closed then (s.(w := DiscardAll(s.w, Payloads(ms))), any)
    else Dispatch(c, FireChannelRead(c, s, ms[0]), ms[1..], true)
  }

  ghost function SetReading(s: State, on: bool): State { s.(log := s.log.(reading := on)) }

  /** The loop of `readReady`: the final state, whether anything was handed on, and whether it failed. */
  ghost function ReadLoop(c: Config, s: State, remaining: int, any: bool): (r: (State, bool, bool))
    requires c.hasChannel
    ensures |r.0.w.script| <= |s.w.script| && Work(r.0) <= Work(s)
    decreases Work(s), |s.w.script|, 9, if remaining > 0 then remaining else 0
  {
    if remaining <= 0 || s.closed then (s, any, false) else
      var got := ReceiveInbound(c.linux, s.w, c.readBufferSize, remaining);
      var (s1, any1) := Dispatch(c, SetReading(s.(w := got.w), true), got.messages, any);
      var s2 := SetReading(s1, false);
      if got.error.Some? then (Close(c, Fire(c, s2, Exception(got.error.value))).s, any1, true)
      else if got.drained || got.messages == [] then (s2, any1, false)
      else ReadLoop(c, s2, remaining - |got.messages|, any1)
  }

  ghost function ReadReady(c: Config, s: State): (r: State)
    ensures |r.w.script| <= |s.w.script| && Work(r) <= Work(s)
    decreases Work(s), |s.w.script|, 10
  {
    if !c.hasAllocator || !c.hasChannel || s.log.reading then s else
      var (s1, any, failed) := ReadLoop(c, s, if c.maxMessages <= 0 then 1 else c.maxMessages, false);
      if any && !failed then Fire(c, s1, ReadComplete) else s1
  }

  // ---- completion mode ----

  ghost function SubmitWrite(c: Config, s: State): (o: Outcome)
    ensures |o.s.w.script| == |s.w.script| && Work(o.s) == Work(s)
  {
    if s.closed || s.writePending || s.queue == [] then Outcome(s, None) else
      match ToSocketAddress(c.ifaces, s.queue[0].addr)
      case Failure(e) => Outcome(s, Some(e))
      case Success(to) =>
        var s1 := s.(w := SkipAnswer(s.w));
        if NextAnswer(s.w) == Accepted then Outcome(WriteSubmitted(s1, to), None) else Outcome(s1, Some(ErrPoller))
  }

  ghost function SubmitRead(c: Config, s: State): (o: Outcome)
    ensures |o.s.w.script| == |s.w.script| && Work(o.s) == Work(s)
  {
    if s.closed || s.readPending || !c.hasAllocator then Outcome(s, None) else
      var got := AcquireBuf(s.w);
      if got.1.None? then Outcome(s.(w := got.0), Some(ErrAllocator))
      else OfferRead(s.(w := got.0), got.1.value)
  }

  /** The second half of `submitReadCompletion`: the poller keeps a reference of its own, or refuses. */
  ghost function OfferRead(s: State, id: nat): (o: Outcome)
    ensures |o.s.w.script| == |s.w.script| && Work(o.s) == Work(s)
  {
    var s1 := s.(w := SkipAnswer(s.w));
    if NextAnswer(s.w) == Accepted then Outcome(LoseRef(ReadSubmitted(s1, id), id), None)
    else Outcome(LoseRef(s1, id), Some(ErrPoller))
  }

  /** A report about the oldest write the poller holds. */
  ghost function HandleWriteCompletion(c: Config, s: State, error: Option<Error>): State
    requires s.w.pendingWrites != []
  {
    var id := s.w.pendingWrites[0].payload.id;
    var s1 := WriteReturned(s);
    var s2 := LoseRef(s1, id);
    if s.closed then s2
    else if error.Some? then Close(c, Fire(c, s2, Exception(error.value))).s
    else
      var s3 := Dequeue(c, s2);
      if s3.queue != [] then
        var o := SubmitWrite(c, s3);
        if o.error.Some? then Close(c, Fire(c, o.s, Exception(o.error.value))).s else o.s
      else Fire(c, s3, FlushComplete)
  }

  /** A report about the oldest read the poller holds: its data and where they came from, or an error. */
  ghost function HandleReadCompletion(c: Config, s: State, data: seq<Byte>, from: SocketAddress, error: Option<Error>): State
    requires s.w.pendingReads != [] && c.hasChannel
  {
    var id := s.w.pendingReads[0];
    var s1 := ReadReturned(s);
    if s.closed then LoseRef(s1, id)
    else if error.Some? then
      Close(c, Fire(c, LoseRef(s1, id), Exception(error.value))).s
    else
      var s2 :=
        if |data| > 0 && from.Valid() then Fire(c, FireChannelRead(c, s1, Inbound(Buf(id, data), from)), ReadComplete)
        else LoseRef(s1, id);
      if s2.closed || !s2.w.autoRead then s2 else
        var o := SubmitRead(c, s2);
        if o.error.Some? then Close(c, Fire(c, o.s, Exception(o.error.value))).s else o.s
  }

  // ---- events from the poller ----

  datatype PollEvent =
    | Ready(error: Option<Error>, hangup: bool, canRead: bool, canWrite: bool)
    | WriteDone(error: Option<Error>)
    | ReadDone(data: seq<Byte>, from: SocketAddress, error: Option<Error>)
    | CloseDone

  /** The events the poller of the given mode delivers in a state. */
  predicate Deliverable(c: Config, s: State, ev: PollEvent) {
    match ev
    case Ready(_, _, _, _) => c.mode != Completion
    case WriteDone(_) => c.mode == Completion && s.w.pendingWrites != []
    case ReadDone(_, _, _) => c.mode == Completion && c.hasChannel && s.w.pendingReads != []
    case CloseDone => c.mode == Completion
  }

  ghost function HandleEvent(c: Config, s: State, ev: PollEvent): State
    requires Deliverable(c, s, ev)
  {
    match ev
    case WriteDone(error) => HandleWriteCompletion(c, s, error)
    case ReadDone(data, from, error) => HandleReadCompletion(c, s, data, from, error)
    case CloseDone => Close(c, s).s
    case Ready(error, hangup, canRead, canWrite) =>
      if s.closed then s
      else if error.Some? then Close(c, Fire(c, s, Exception(error.value))).s
      else if hangup then Close(c, s).s
      else
        var s1 := if canRead && (!c.hasChannel || s.w.autoRead) then ReadReady(c, s) else s;
        if !canWrite then s1 else
          var o := FlushOutbound(c, s1);
          if o.error.Some? then Close(c, Fire(c, o.s, Exception(o.error.value))).s else o.s
  }
}
