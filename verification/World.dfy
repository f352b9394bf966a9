/**
 * Everything the endpoint touches but does not own: reference counts, the datagram pool, the socket, the
 * poller and the handlers of the pipeline. What these decide is not known to the endpoint, so each of them
 * is a list of answers still to be given; results hold for every such list.
 */
module World {
  import opened Wrappers
  import opened Addresses

  /** A thing with a reference count: a payload buffer, or a pooled datagram envelope. */
  datatype Resource = BufRef(id: nat) | EnvelopeRef(id: nat)

  /** A `buffer.ByteBuf`: its identity and its readable bytes, which stay fixed while it is queued. */
  datatype Buf = Buf(id: nat, data: seq<Byte>)

  /** `Datagram`; `envelope` is the pool slot behind the fields `pool` and `self`. */
  datatype Datagram = Datagram(payload: Buf, addr: Address, envelope: Option<nat>)

  /** The references `Datagram.Release` gives up, in its order. */
  function Owned(d: Datagram): seq<Resource> {
    [BufRef(d.payload.id)] + (if d.envelope.Some? then [EnvelopeRef(d.envelope.value)] else [])
  }

  /** `datagramSize` */
  function Size(d: Datagram): nat { |d.payload.data| }

  /** The dynamic types `endpoint.Write` tells apart. */
  datatype Message =
    | DatagramMessage(payload: Option<Buf>, addr: Address, envelope: Option<nat>)
    | NilDatagram
    | BufMessage(buf: Buf)
    | OtherMessage(owned: seq<Resource>)

  /** The references `message.Release` gives up. */
  function MessageOwned(m: Message): seq<Resource> {
    match m
    case DatagramMessage(p, _, e) =>
      (if p.Some? then [BufRef(p.value.id)] else []) + (if e.Some? then [EnvelopeRef(e.value)] else [])
    case NilDatagram => []
    case BufMessage(b) => [BufRef(b.id)]
    case OtherMessage(owned) => owned
  }

  /** The handlers own everything a message carries. */
  predicate Owns(w: World, m: Message) { multiset(MessageOwned(m)) <= w.held }

  /** What a handler does while one callback runs; `Return` ends the callback. */
  datatype Reaction =
    | Return
    | DoWrite(message: Message)
    | DoFlush
    | DoRead
    | DoClose
    | DoAllocate
    | DoRetain(r: Resource)
    | DoRelease(r: Resource)
    | DoAutoRead(on: bool)

  /** What the socket says to one datagram offered to it. */
  datatype SendOutcome = Taken | WouldBlock | Refused

  /** The next thing the socket has for a reader. */
  datatype Arrival = Packet(data: seq<Byte>, from: KernelSockaddr, length: nat) | SocketFailure

  /** What the poller says to one Submit or Modify. */
  datatype Answer = Accepted | PollerClosed | Rejected

  datatype WriteRequest = WriteRequest(payload: Buf, to: SocketAddress)

  datatype World = World(
    refs: multiset<Resource>,      // outstanding reference counts
    held: multiset<Resource>,      // of these, the ones handlers own
    inHand: multiset<Resource>,    // and the ones running calls of the transport own
    pool: seq<nat>,                // free envelopes
    nextBuf: nat,
    nextEnvelope: nat,
    pendingWrites: seq<WriteRequest>, // operations outstanding at the poller
    pendingReads: seq<nat>,
    mask: bool,                    // the poller reports write readiness
    drift: bool,                   // the last Modify calls left `mask` behind the endpoint's flag
    autoRead: bool,
    script: seq<Reaction>,
    sends: seq<SendOutcome>,
    arrivals: seq<Arrival>,
    answers: seq<Answer>,
    grants: seq<bool>)             // the allocator's answers

  // ---- reference counts ----

  /** The envelopes among some references, in order. */
  function Envelopes(rs: seq<Resource>): seq<nat>
    decreases |rs|
  {
    if rs == [] then [] else (if rs[0].EnvelopeRef? then [rs[0].id] else []) + Envelopes(rs[1..])
  }

  /** `Release` on each of them; a released envelope goes back to the pool. */
  function ReleaseAll(w: World, rs: seq<Resource>): World {
    w.(refs := w.refs - multiset(rs), pool := w.pool + Envelopes(rs))
  }

  /** A holder gives up its references. */
  function DropAll(w: World, rs: seq<Resource>): World {
    w.(refs := w.refs - multiset(rs), held := w.held - multiset(rs), pool := w.pool + Envelopes(rs))
  }

  function Drop(w: World, r: Resource): World {
    w.(refs := w.refs - multiset{r}, held := w.held - multiset{r},
       pool := if r.EnvelopeRef? then w.pool + [r.id] else w.pool)
  }

  /** A running call gives up its reference to a buffer. */
  function Discard(w: World, id: nat): World {
    w.(refs := w.refs - multiset{BufRef(id)}, inHand := w.inHand - multiset{BufRef(id)})
  }

  function Bufs(ids: seq<nat>): seq<Resource> { seq(|ids|, i requires 0 <= i < |ids| => BufRef(ids[i])) }

  function DiscardAll(w: World, ids: seq<nat>): World {
    w.(refs := w.refs - multiset(Bufs(ids)), inHand := w.inHand - multiset(Bufs(ids)))
  }

  /** A running call passes a reference to the handlers. */
  function HandOver(w: World, r: Resource): World {
    w.(inHand := w.inHand - multiset{r}, held := w.held + multiset{r})
  }

  function Obtain(w: World, r: Resource): World {
    w.(refs := w.refs + multiset{r}, held := w.held + multiset{r})
  }

  /** A buffer that a running call allocates. */
  function NewBuf(w: World): World {
    var r := BufRef(w.nextBuf);
    w.(refs := w.refs + multiset{r}, inHand := w.inHand + multiset{r}, nextBuf := w.nextBuf + 1)
  }

  /** A buffer that a handler allocates. */
  function HandlerBuf(w: World): World {
    var r := BufRef(w.nextBuf);
    w.(refs := w.refs + multiset{r}, held := w.held + multiset{r}, nextBuf := w.nextBuf + 1)
  }

  /** The actions of a handler that do not call the endpoint; it can only release what it holds. */
  function Handle(w: World, action: Reaction): (r: World)
    ensures r.script == w.script && r.inHand == w.inHand && r.arrivals == w.arrivals && r.grants == w.grants && r.answers == w.answers
    ensures r.pendingWrites == w.pendingWrites && r.pendingReads == w.pendingReads
  {
    match action
    case DoAllocate => HandlerBuf(w)
    case DoRetain(x) => if x.BufRef? && x in w.held then Obtain(w, x) else w
    case DoRelease(x) => if x in w.held then Drop(w, x) else w
    case DoAutoRead(on) => w.(autoRead := on)
    case _ => w
  }

  /** `Allocator.Acquire`: a new buffer owned by the caller; an exhausted answer list means success. */
  function AcquireBuf(w: World): (World, Option<nat>) {
    if w.grants != [] && !w.grants[0] then (w.(grants := w.grants[1..]), None)
    else
      (NewBuf(w).(grants := if w.grants == [] then [] else w.grants[1..]), Some(w.nextBuf))
  }

  /** `datagramPool.acquire`: an envelope from the pool, or a new one, on its way to the handlers. */
  function AcquireEnvelope(w: World): (World, nat) {
    if w.pool == [] then (Obtain(w, EnvelopeRef(w.nextEnvelope)).(nextEnvelope := w.nextEnvelope + 1), w.nextEnvelope)
    else (Obtain(w, EnvelopeRef(w.pool[0])).(pool := w.pool[1..]), w.pool[0])
  }

  /** The poller's answer to one call; an exhausted answer list means success. */
  function NextAnswer(w: World): Answer { if w.answers == [] then Accepted else w.answers[0] }

  function SkipAnswer(w: World): World { if w.answers == [] then w else w.(answers := w.answers[1..]) }

  // ---- sending ----

  /** What one send call did: datagrams the kernel took, the count it reported, and the rest of the outcomes. */
  datatype SendResult = SendResult(taken: nat, sent: nat, again: bool, error: Option<Error>, rest: seq<SendOutcome>)

  predicate Sendable(ifaces: map<string, nat>, d: Datagram) { ToRawSockaddr(ifaces, d.addr).Success? }

  /** How many of the next `n` datagrams the socket takes before it refuses one. */
  function TakenPrefix(sends: seq<SendOutcome>, n: nat): (k: nat)
    ensures k <= n && k <= |sends|
  {
    if n == 0 || sends == [] || sends[0] != Taken then 0 else 1 + TakenPrefix(sends[1..], n - 1)
  }

  /** `sendDatagram`: one datagram; an exhausted outcome list means the socket would block. */
  function SendOne(ifaces: map<string, nat>, d: Datagram, sends: seq<SendOutcome>): SendResult {
    if !Sendable(ifaces, d) then SendResult(0, 0, false, Some(ErrInvalidAddress), sends)
    else if sends == [] then SendResult(0, 0, true, None, [])
    else
      match sends[0]
      case Taken => SendResult(1, 1, false, None, sends[1..])
      case WouldBlock => SendResult(0, 0, true, None, sends[1..])
      case Refused => SendResult(0, 0, false, Some(ErrSocket), sends[1..])
  }

  /** `sendmmsg`: takes a prefix; an error after the first datagram is reported only as a short count. */
  function SendMany(n: nat, sends: seq<SendOutcome>): (r: SendResult)
    ensures r.sent <= n && (r.sent < n ==> r.again || r.error.Some?)
  {
    var k := TakenPrefix(sends, n);
    if k == n then SendResult(n, n, false, None, sends[k..])
    else if k == |sends| then SendResult(k, k, true, None, [])
    else if k == 0 && sends[0] == Refused then SendResult(0, 0, false, Some(ErrSocket), sends[1..])
    else SendResult(k, k, true, None, sends[k + 1..])
  }

  /** The Linux writer: every address is encoded before the first datagram is offered. */
  function LinuxSend(ifaces: map<string, nat>, batch: seq<Datagram>, sends: seq<SendOutcome>): SendResult {
    if batch == [] then SendResult(0, 0, false, None, sends)
    else if |batch| == 1 then SendOne(ifaces, batch[0], sends)
    else if exists i :: 0 <= i < |batch| && !Sendable(ifaces, batch[i]) then
      SendResult(0, 0, false, Some(ErrInvalidAddress), sends)
    else SendMany(|batch|, sends)
  }

  /** The portable writer: one datagram at a time; `index` have been sent before. */
  function FallbackSend(ifaces: map<string, nat>, batch: seq<Datagram>, sends: seq<SendOutcome>, index: nat): (r: SendResult)
    requires index <= |batch|
    ensures index <= r.taken == r.sent <= |batch|
    ensures if r.sent == |batch| then r.error.None? && !r.again else r.again <==> r.error.None?
    decreases |batch| - index
  {
    if index == |batch| then SendResult(index, index, false, None, sends) else
      var one := SendOne(ifaces, batch[index], sends);
      if one.error.Some? || one.again then SendResult(index, index, one.again, one.error, one.rest)
      else FallbackSend(ifaces, batch, one.rest, index + 1)
  }

  function SendBatch(linux: bool, ifaces: map<string, nat>, batch: seq<Datagram>, sends: seq<SendOutcome>): (r: SendResult)
    ensures r.taken == r.sent <= |batch|
    ensures if r.sent == |batch| then r.error.None? && !r.again else r.again <==> r.error.None?
    ensures linux && r.error.Some? ==> r.taken == 0
  {
    if linux then LinuxSend(ifaces, batch, sends) else FallbackSend(ifaces, batch, sends, 0)
  }

  // ---- receiving ----

  /** `receivedDatagram` */
  datatype Inbound = Inbound(payload: Buf, from: SocketAddress)

  /** The buffers of a batch. */
  function Payloads(ms: seq<Inbound>): seq<nat> {
    seq(|ms|, i requires 0 <= i < |ms| => ms[i].payload.id)
  }

  /** The references a batch carries. */
  function Refs(ms: seq<Inbound>): multiset<Resource> { multiset(Bufs(Payloads(ms))) }

  /** Receiving has nothing to do with handlers, sends, the poller's answers and outstanding operations. */
  predicate Apart(v: World, w: World) {
    && w.script == v.script && w.sends == v.sends && w.answers == v.answers
    && w.pendingWrites == v.pendingWrites && w.pendingReads == v.pendingReads
  }

  datatype Received = Received(messages: seq<Inbound>, drained: bool, error: Option<Error>, w: World)

  /** `recvfrom` and `recvmmsg` cut a datagram to the buffer. */
  function Cut(data: seq<Byte>, size: nat): seq<Byte> { if |data| <= size then data else data[..size] }

  function Min(a: int, b: int): int { if a <= b then a else b }

  const MAX_READ_BATCH := 64
  const MAX_WRITE_BATCH := 64

  /** `receiveSingleDatagram` */
  function ReceiveSingle(w: World, size: nat): (r: Received)
    ensures Apart(w, r.w) && |r.messages| <= 1
  {
    var (w1, got) := AcquireBuf(w);
    if got.None? then Received([], false, Some(ErrAllocator), w1) else
      var id := got.value;
      if w1.arrivals == [] then Received([], true, None, Discard(w1, id))
      else
        var w2 := w1.(arrivals := w1.arrivals[1..]);
        match w1.arrivals[0]
        case SocketFailure => Received([], false, Some(ErrSocket), Discard(w2, id))
        case Packet(data, from, length) =>
          match FromRawSockaddr(from, length)
          case Failure(e) => Received([], false, Some(e), Discard(w2, id))
          case Success(addr) =>
            if !addr.Valid() then Received([], true, None, Discard(w2, id))
            else Received([Inbound(Buf(id, Cut(data, size)), addr)], false, None, w2)
  }

  /** The portable reader's loop, with the messages read so far. */
  function FallbackReceive(w: World, size: nat, limit: nat, done: seq<Inbound>): (r: Received)
    requires |done| <= limit
    ensures |r.messages| <= limit && Apart(w, r.w)
    decreases limit - |done|
  {
    if |done| == limit then Received(done, false, None, w) else
      var one := ReceiveSingle(w, size);
      if one.messages == [] then Received(done, one.drained, one.error, one.w)
      else FallbackReceive(one.w, size, limit, done + [one.messages[0]])
  }

  /** `prepare`: all the buffers, or none. */
  function Prepare(w: World, limit: nat, ids: seq<nat>): (r: (World, Option<seq<nat>>))
    requires |ids| <= limit
    ensures r.1.Some? ==> |r.1.value| == limit
    ensures Apart(w, r.0) && r.0.arrivals == w.arrivals
    decreases limit - |ids|
  {
    if |ids| == limit then (w, Some(ids)) else
      var (w1, got) := AcquireBuf(w);
      if got.None? then (DiscardAll(w1, ids), None) else Prepare(w1, limit, ids + [got.value])
  }

  /** How many of the next `n` arrivals are datagrams. */
  function PacketPrefix(arrivals: seq<Arrival>, n: nat): (k: nat)
    ensures k <= n && k <= |arrivals|
    ensures forall i :: 0 <= i < k ==> arrivals[i].Packet?
  {
    if n == 0 || arrivals == [] || !arrivals[0].Packet? then 0 else 1 + PacketPrefix(arrivals[1..], n - 1)
  }

  /** `unpack`: descriptor by descriptor; the buffers from a bad address on go back. */
  function Unpack(w: World, size: nat, packets: seq<Arrival>, ids: seq<nat>, done: seq<Inbound>): (r: Received)
    requires |done| <= |packets| <= |ids|
    requires forall i :: 0 <= i < |packets| ==> packets[i].Packet?
    ensures |r.messages| <= |packets| && Apart(w, r.w) && r.drained == (|packets| < |ids|)
    decreases |packets| - |done|
  {
    var index := |done|;
    if index == |packets| then Received(done, |packets| < |ids|, None, DiscardAll(w, ids[index..])) else
      match FromRawSockaddr(packets[index].from, packets[index].length)
      case Failure(e) => Received(done, |packets| < |ids|, Some(e), DiscardAll(w, ids[index..]))
      case Success(addr) =>
        Unpack(w, size, packets, ids, done + [Inbound(Buf(ids[index], Cut(packets[index].data, size)), addr)])
  }

  /** `recvmmsg` and what follows it: at least one datagram, or the socket's error, or nothing pending. */
  function LinuxReceive(w: World, size: nat, limit: nat): (r: Received)
    requires limit > 0
    ensures |r.messages| <= limit && Apart(w, r.w)
  {
    var (w1, prepared) := Prepare(w, limit, []);
    if prepared.None? then Received([], false, Some(ErrAllocator), w1) else
      var ids := prepared.value;
      var count := PacketPrefix(w1.arrivals, |ids|);
      if w1.arrivals == [] then Received([], true, None, DiscardAll(w1, ids))
      else if count == 0 then
        Received([], false, Some(ErrSocket), DiscardAll(w1.(arrivals := w1.arrivals[1..]), ids))
      else Unpack(w1.(arrivals := w1.arrivals[count..]), size, w1.arrivals[..count], ids, [])
  }

  /** `datagramBatchReader.receive` on either platform. */
  function ReceiveBatch(linux: bool, w: World, size: nat, limit: int): (r: Received)
    ensures Apart(w, r.w)
    ensures limit >= 0 ==> |r.messages| <= limit
  {
    var n := Min(limit, MAX_READ_BATCH);
    if n <= 0 then Received([], true, None, w)
    else if linux then LinuxReceive(w, size, n)
    else FallbackReceive(w, size, n, [])
  }

  /** `receiveInbound` */
  function ReceiveInbound(linux: bool, w: World, size: nat, limit: int): (r: Received)
    ensures Apart(w, r.w)
    ensures limit >= 1 ==> |r.messages| <= limit
  {
    hide ReceiveSingle; hide ReceiveBatch;
    if limit <= 1 then ReceiveSingle(w, size) else ReceiveBatch(linux, w, size, limit)
  }
}
