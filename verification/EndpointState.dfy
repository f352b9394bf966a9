/**
 * The state of an endpoint (endpoint.go) and the atoms its operations are made of. No handler runs inside an
 * atom, so the states between atoms are the ones a handler, or anyone else, can see.
 */
module EndpointState {
  import opened Wrappers
  import opened Addresses
  import opened World

  datatype Mode = NoLoop | Readiness | Completion

  /** What does not change during an endpoint's life. */
  datatype Config = Config(
    high: int, low: int,
    mode: Mode, linux: bool, hasChannel: bool, hasAllocator: bool,
    pooled: bool, readBufferSize: nat, maxMessages: int,
    remote: Address, ifaces: map<string, nat>,
    closeFails: bool, allocatorCloseFails: bool)

  /** Watermarks as normalised by the transport package; an endpoint is registered only with its channel. */
  predicate WellFormed(c: Config) {
    0 <= c.low < c.high && (c.mode == Completion ==> c.hasChannel)
  }

  /** What the pipeline is told. */
  datatype Event =
    | WritabilityChanged(writable: bool)
    | FlushComplete
    | Exception(error: Error)
    | Inactive
    | ChannelRead(payload: Buf, from: Address, envelope: Option<nat>)
    | ReadComplete

  /** What happened so far. None of it influences the endpoint. */
  datatype Log = Log(
    accepted: seq<Datagram>,   // queued by Write, in order
    queuedAfter: seq<nat>,     // how much of `events` each of them was queued after
    gone: seq<Datagram>,       // of these, the ones taken off the queue
    sent: seq<Datagram>,       // given to the socket, or submitted to the poller
    sentAt: seq<nat>,          // their positions in `accepted`
    inFlight: nat,             // leading queue entries that are in `sent`
    levels: seq<int>,          // `outboundBytes` after every change
    entered: int,              // bytes ever queued
    flips: seq<bool>,          // values the writable flag took
    peak: nat,                 // longest queue so far
    made: nat,                 // queue entries ever allocated
    fdCloses: nat, allocatorCloses: nat,
    events: seq<Event>,
    dispatched: seq<Inbound>,  // datagrams handed to the pipeline
    depth: int,                // flushes whose send loop is running
    reading: bool,             // a receive batch is being dispatched
    nested: bool,              // a flush was started inside another flush's send loop
    partial: bool,             // a send reported an error after sending something
    resent: bool)              // something was sent while `inFlight` was not zero

  datatype State = State(
    queue: seq<Datagram>, spare: nat, bytes: int,
    closed: bool, inactiveFired: bool, writable: bool,
    writeInterest: bool, readPending: bool, writePending: bool,
    w: World, log: Log)

  datatype Outcome = Outcome(s: State, error: Option<Error>)

  function InitialLog(): Log {
    Log([], [], [], [], [], 0, [], 0, [], 0, 0, 0, 0, [], [], 0, false, false, false, false)
  }

  function InitialWorld(): World {
    World(multiset{}, multiset{}, multiset{}, [], 0, 0, [], [], false, false, true, [], [], [], [], [])
  }

  function Initial(): State {
    State([], 0, 0, false, false, true, false, false, false, InitialWorld(), InitialLog())
  }

  // ---- atoms ----

  function Toggle(c: Config, s: State, on: bool): State {
    s.(writable := on,
       log := s.log.(flips := s.log.flips + [on],
                     events := if c.hasChannel then s.log.events + [WritabilityChanged(on)] else s.log.events))
  }

  /** The flag part of `updateWritability` and `closeWritability`. */
  function Settled(c: Config, s: State): (r: State)
    ensures r.w == s.w && r.queue == s.queue && r.bytes == s.bytes && r.closed == s.closed
  {
    if s.closed then (if s.writable then Toggle(c, s, false) else s)
    else if s.writable && s.bytes >= c.high then Toggle(c, s, false)
    else if !s.writable && s.bytes <= c.low then Toggle(c, s, true)
    else s
  }

  function Appended(s: State, d: Datagram): State {
    s.(queue := s.queue + [d],
       spare := if s.spare == 0 then 0 else s.spare - 1,
       bytes := s.bytes + Size(d),
       w := s.w.(held := s.w.held - multiset(Owned(d))),
       log := s.log.(accepted := s.log.accepted + [d],
                     queuedAfter := s.log.queuedAfter + [|s.log.events|],
                     levels := s.log.levels + [s.bytes + Size(d)],
                     entered := s.log.entered + Size(d),
                     made := if s.spare == 0 then s.log.made + 1 else s.log.made,
                     peak := if |s.queue| + 1 > s.log.peak then |s.queue| + 1 else s.log.peak))
  }

  function Popped(s: State): State
    requires s.queue != []
  {
    var d := s.queue[0];
    var left := s.bytes - Size(d);
    var bytes := if left < 0 then 0 else left;
    s.(queue := s.queue[1..],
       spare := s.spare + 1,
       bytes := bytes,
       w := ReleaseAll(s.w, Owned(d)),
       log := s.log.(gone := s.log.gone + [d],
                     levels := s.log.levels + [bytes],
                     inFlight := if s.log.inFlight == 0 then 0 else s.log.inFlight - 1))
  }

  function Positions(first: nat, n: nat): seq<nat> { seq(n, i requires 0 <= i => first + i) }

  /** The socket took the first `taken` entries of the queue. */
  function Batched(s: State, r: SendResult): State
    requires r.taken <= |s.queue|
  {
    s.(w := s.w.(sends := r.rest),
       log := s.log.(sent := s.log.sent + s.queue[..r.taken],
                     sentAt := s.log.sentAt + Positions(|s.log.gone|, r.taken),
                     inFlight := if r.taken == 0 then s.log.inFlight else r.taken,
                     resent := s.log.resent || (r.taken > 0 && s.log.inFlight > 0),
                     partial := s.log.partial || (r.error.Some? && r.taken > 0)))
  }

  /** `enableWriteInterest` and `disableWriteInterest` flip the flag, then ask the poller. */
  function Interested(s: State, on: bool): State {
    var ok := NextAnswer(s.w) == Accepted;
    s.(writeInterest := on,
       w := SkipAnswer(s.w).(mask := if ok then on else s.w.mask, drift := !ok && !s.w.drift))
  }

  function WriteSubmitted(s: State, to: SocketAddress): State
    requires s.queue != []
  {
    var d := s.queue[0];
    s.(writePending := true,
       w := s.w.(refs := s.w.refs + multiset{BufRef(d.payload.id)},
                 pendingWrites := s.w.pendingWrites + [WriteRequest(d.payload, to)]),
       log := s.log.(sent := s.log.sent + [d], sentAt := s.log.sentAt + [|s.log.gone|], inFlight := 1,
                     resent := s.log.resent || s.log.inFlight > 0))
  }

  function ReadSubmitted(s: State, id: nat): State {
    s.(readPending := true,
       w := s.w.(refs := s.w.refs + multiset{BufRef(id)}, pendingReads := s.w.pendingReads + [id]))
  }

  /** The poller hands back its reference to the oldest write. */
  function WriteReturned(s: State): State
    requires s.w.pendingWrites != []
  {
    s.(writePending := s.closed && s.writePending,
       w := s.w.(pendingWrites := s.w.pendingWrites[1..],
                 inHand := s.w.inHand + multiset{BufRef(s.w.pendingWrites[0].payload.id)}))
  }

  /** The running call gives up a reference of its own. */
  function LoseRef(s: State, id: nat): State { s.(w := Discard(s.w, id)) }

  /** A write is done: its buffer comes back and is released, and its entry leaves the queue. */
  function WriteCompleted(s: State): State
    requires s.w.pendingWrites != [] && s.queue != []
  {
    Popped(LoseRef(WriteReturned(s), s.w.pendingWrites[0].payload.id))
  }

  function ReadReturned(s: State): State
    requires s.w.pendingReads != []
  {
    s.(readPending := s.closed && s.readPending,
       w := s.w.(pendingReads := s.w.pendingReads[1..],
                 inHand := s.w.inHand + multiset{BufRef(s.w.pendingReads[0])}))
  }

  function Emit(s: State, e: Event): State { s.(log := s.log.(events := s.log.events + [e])) }

  function Dispatched(s: State, m: Inbound): State { s.(log := s.log.(dispatched := s.log.dispatched + [m])) }

  /** A datagram is handed on: to whoever reads the log, and to the handlers, with its sender decoded. */
  function Announced(s: State, m: Inbound, envelope: Option<nat>): State {
    Emit(Dispatched(s, m), ChannelRead(m.payload, FromSocketAddress(m.from), envelope))
  }

  function MarkedInactive(c: Config, s: State): State {
    var t := s.(inactiveFired := true);
    if c.hasChannel then Emit(t, Inactive) else t
  }

  /** The answers a world still has to give may be anything; the pool may be shuffled and lose entries. */
  predicate SameHoldings(v: World, w: World) {
    && v.refs == w.refs && v.held == w.held && v.inHand == w.inHand && v.nextBuf == w.nextBuf && v.nextEnvelope == w.nextEnvelope
    && v.pendingWrites == w.pendingWrites && v.pendingReads == w.pendingReads
    && v.mask == w.mask && v.drift == w.drift && multiset(v.pool) <= multiset(w.pool)
  }

  /** Atoms that only move references, or consume answers. */
  datatype Holding =
    | MakeBuf
    | MakeHandlerBuf
    | MakeEnvelope
    | Retain(r: Resource)
    | Lose(rs: seq<Resource>)
    | LoseOne(r: Resource)
    | DiscardOne(id: nat)
    | DiscardMany(ids: seq<nat>)
    | Handing(r: Resource)
    | Outside(w: World)

  predicate Movable(h: Holding, w: World) {
    match h
    case MakeBuf => true
    case MakeHandlerBuf => true
    case MakeEnvelope => true
    case Retain(r) => r.BufRef? && r in w.held
    case Lose(rs) => multiset(rs) <= w.held
    case LoseOne(r) => r in w.held
    case DiscardOne(id) => BufRef(id) in w.inHand
    case DiscardMany(ids) => multiset(Bufs(ids)) <= w.inHand
    case Handing(r) => r in w.inHand
    case Outside(v) => SameHoldings(v, w)
  }

  function Move(h: Holding, w: World): (r: World)
    requires Movable(h, w)
    ensures r.pendingWrites == w.pendingWrites && r.pendingReads == w.pendingReads
    ensures r.mask == w.mask && r.drift == w.drift
  {
    match h
    case MakeBuf => NewBuf(w)
    case MakeHandlerBuf => HandlerBuf(w)
    case MakeEnvelope => AcquireEnvelope(w).0
    case Retain(r) => Obtain(w, r)
    case Lose(rs) => DropAll(w, rs)
    case LoseOne(r) => Drop(w, r)
    case DiscardOne(id) => Discard(w, id)
    case DiscardMany(ids) => DiscardAll(w, ids)
    case Handing(r) => HandOver(w, r)
    case Outside(v) => v
  }

  /** Marks in the log that concern flushes, and the steps of Close after its first. */
  datatype Mark =
    | BeginFlush | EndFlush | Reading(on: bool) | Announcing(m: Inbound, envelope: Option<nat>)
    | FreeEntries | CloseFd | CloseAllocator | MarkInactive | Tell(e: Event)

  /** What is told on its own; the rest is told together with a change of the state. */
  predicate Tellable(e: Event) { e.FlushComplete? || e.Exception? || e.ReadComplete? }

  predicate Markable(c: Config, m: Mark, s: State) {
    match m
    case BeginFlush => c.mode != Completion
    case EndFlush =>
      && s.log.depth > 0
      && (!s.closed && !s.log.nested && s.writeInterest ==> s.queue != [])
      && (!s.closed && !s.log.nested && !s.log.partial ==> s.log.inFlight == 0)
    case Reading(_) => true
    // to handlers that own its envelope
    case Announcing(_, envelope) =>
      c.hasChannel && envelope.Some? == c.pooled && (envelope.Some? ==> EnvelopeRef(envelope.value) in s.w.held)
    case FreeEntries => s.closed && s.queue == []
    case CloseFd => s.closed && s.log.fdCloses == 0 && s.queue == [] && s.spare == 0
    case CloseAllocator => s.log.allocatorCloses == 0 && s.log.fdCloses == 1 && c.hasAllocator
    case MarkInactive => s.log.fdCloses == 1 && !s.inactiveFired
    case Tell(e) => Tellable(e)
  }

  function Marked(c: Config, m: Mark, s: State): (r: State)
    ensures r.w == s.w && r.queue == s.queue && r.bytes == s.bytes && r.closed == s.closed
    ensures r.readPending == s.readPending && r.writePending == s.writePending
  {
    match m
    case BeginFlush => s.(log := s.log.(depth := s.log.depth + 1, nested := s.log.nested || s.log.depth > 0))
    case EndFlush => s.(log := s.log.(depth := s.log.depth - 1))
    case Reading(on) => s.(log := s.log.(reading := on))
    case Announcing(m, envelope) => Announced(s, m, envelope)
    case FreeEntries => s.(spare := 0)
    case CloseFd => s.(log := s.log.(fdCloses := s.log.fdCloses + 1))
    case CloseAllocator => s.(log := s.log.(allocatorCloses := s.log.allocatorCloses + 1))
    case MarkInactive => MarkedInactive(c, s)
    case Tell(e) => Emit(s, e)
  }

  datatype Atom =
    | Append(d: Datagram)
    | Pop
    | Batch(result: SendResult)
    | Interest(on: bool)
    | WriteOffered(to: SocketAddress)
    | ReadOffered(id: nat)
    | CompleteWrite
    | ReturnWrite
    | ReturnRead
    | BeginClose
    | Note(mark: Mark)
    | Hold(holding: Holding)

  /** What the socket says to the next batch of a flush. */
  function FirstSend(c: Config, s: State): (r: SendResult)
    ensures r.taken == r.sent <= |s.queue|
  {
    hide LinuxSend; hide FallbackSend;
    SendBatch(c.linux, c.ifaces, s.queue[..Min(MAX_WRITE_BATCH, |s.queue|)], s.w.sends)
  }

  /** When the operations perform an atom. */
  predicate Enabled(c: Config, a: Atom, s: State) {
    match a
    case Append(d) => !s.closed && multiset(Owned(d)) <= s.w.held
    case Pop =>
      s.queue != [] && (s.closed || (c.mode != Completion && s.log.depth > 0 && (s.log.inFlight > 0 || s.log.resent)))
    case Batch(r) =>
      && !s.closed && c.mode != Completion && r == FirstSend(c, s) && s.log.depth > 0
      && (r.error.Some? && r.taken > 0 ==> !c.linux)
      && (!s.log.nested && !s.log.partial ==> s.log.inFlight == 0)
    case Interest(on) => c.mode == Readiness && s.writeInterest != on && s.log.depth > 0
    case WriteOffered(to) =>
      && !s.closed && !s.writePending && s.queue != [] && c.mode == Completion
      && ToSocketAddress(c.ifaces, s.queue[0].addr) == Success(to)
    case ReadOffered(id) =>
      !s.closed && !s.readPending && c.mode == Completion && BufRef(id) in s.w.inHand
    case CompleteWrite => c.mode == Completion && !s.closed && s.writePending && s.w.pendingWrites != [] && s.queue != []
    case ReturnWrite => s.w.pendingWrites != []
    case ReturnRead => s.w.pendingReads != []
    case BeginClose => !s.closed
    case Note(m) => Markable(c, m, s)
    case Hold(h) => Movable(h, s.w)
  }

  function Apply(c: Config, a: Atom, s: State): State
    requires Enabled(c, a, s)
  {
    match a
    case Append(d) => Settled(c, Appended(s, d))
    case Pop => Settled(c, Popped(s))
    case Batch(r) => Batched(s, r)
    case Interest(on) => Interested(s, on)
    case WriteOffered(to) => WriteSubmitted(s, to)
    case ReadOffered(id) => ReadSubmitted(s, id)
    case CompleteWrite => Settled(c, WriteCompleted(s))
    case ReturnWrite => WriteReturned(s)
    case ReturnRead => ReadReturned(s)
    case BeginClose => Settled(c, s.(closed := true))
    case Note(m) => Marked(c, m, s)
    case Hold(h) => s.(w := Move(h, s.w))
  }

  /** Room for handlers to act: every callback action shortens the script, every Write lengthens the queue. */
  function Work(s: State): nat { |s.w.script| + |s.queue| }
}
