/**
 * The batch readers and writers with the arrays they keep between calls (io_batch_linux.go,
 * io_batch_fallback.go, io_receive_batch.go, io_receive_batch_linux.go, io_receive_batch_fallback.go).
 */
module BatchIO {
  import opened Wrappers
  import opened Addresses
  import opened World
  import W = World
  import opened Receiving

  /** The outside world as an object. Its methods are the calls that leave the module. */
  class Env {
    var w: World

    constructor (w0: World)
      ensures w == w0
    {
      w := w0;
    }

    /** `ByteBuf.Release` and `datagramPool.release`: each reference must still be there. */
    method ReleaseAll(rs: seq<Resource>)
      requires multiset(rs) <= w.refs
      modifies this
      ensures w == W.ReleaseAll(old(w), rs)
    {
      w := W.ReleaseAll(w, rs);
    }

    method DropAll(rs: seq<Resource>)
      requires multiset(rs) <= w.held && multiset(rs) <= w.refs
      modifies this
      ensures w == W.DropAll(old(w), rs)
    {
      w := W.DropAll(w, rs);
    }

    method Discard(id: nat)
      requires BufRef(id) in w.inHand && BufRef(id) in w.refs
      modifies this
      ensures w == W.Discard(old(w), id)
    {
      w := W.Discard(w, id);
    }

    method AcquireBuf() returns (id: Option<nat>)
      modifies this
      ensures (w, id) == W.AcquireBuf(old(w))
    {
      var (w1, got) := W.AcquireBuf(w);
      w := w1;
      id := got;
    }

    /** The next thing a handler does. */
    method NextReaction() returns (action: Reaction)
      requires w.script != []
      modifies this
      ensures action == old(w).script[0] && w == old(w).(script := old(w).script[1..])
    {
      action := w.script[0];
      w := w.(script := w.script[1..]);
    }

    /** Answers still to be given may be replaced. */
    method Provide(v: World)
      modifies this
      ensures w == v
    {
      w := v;
    }

    /** What a handler does without the endpoint. */
    method Handle(action: Reaction)
      modifies this
      ensures w == W.Handle(old(w), action)
    {
      w := W.Handle(w, action);
    }

    /** References pass from the handlers to the queue. */
    method Entrust(rs: seq<Resource>)
      requires multiset(rs) <= w.held
      modifies this
      ensures w == old(w).(held := old(w).held - multiset(rs))
    {
      w := w.(held := w.held - multiset(rs));
    }

    method HandOver(r: Resource)
      requires r in w.inHand
      modifies this
      ensures w == W.HandOver(old(w), r)
    {
      w := W.HandOver(w, r);
    }

    /** `datagramPool.acquire` */
    method AcquireEnvelope() returns (id: nat)
      modifies this
      ensures (w, id) == W.AcquireEnvelope(old(w))
    {
      var (w1, got) := W.AcquireEnvelope(w);
      w := w1;
      id := got;
    }

    /** `Poller.Modify`: what readiness is reported. */
    method Modify(on: bool) returns (answer: Answer)
      modifies this
      ensures answer == NextAnswer(old(w))
      ensures var ok := answer == Accepted;
              w == SkipAnswer(old(w)).(mask := if ok then on else old(w).mask, drift := !ok && !old(w).drift)
    {
      answer := NextAnswer(w);
      var ok := answer == Accepted;
      w := SkipAnswer(w).(mask := if ok then on else w.mask, drift := !ok && !w.drift);
    }

    /** `Poller.Submit` of a write: the poller retains the buffer of an operation it accepts. */
    method SubmitWrite(payload: Buf, to: SocketAddress) returns (answer: Answer)
      modifies this
      ensures answer == NextAnswer(old(w))
      ensures var v := SkipAnswer(old(w));
              w == if answer != Accepted then v
                   else v.(refs := v.refs + multiset{BufRef(payload.id)},
                           pendingWrites := v.pendingWrites + [WriteRequest(payload, to)])
    {
      answer := NextAnswer(w);
      w := SkipAnswer(w);
      if answer == Accepted {
        w := w.(refs := w.refs + multiset{BufRef(payload.id)},
                pendingWrites := w.pendingWrites + [WriteRequest(payload, to)]);
      }
    }

    /** `Poller.Submit` of a read */
    method SubmitRead(id: nat) returns (answer: Answer)
      modifies this
      ensures answer == NextAnswer(old(w))
      ensures var v := SkipAnswer(old(w));
              w == if answer != Accepted then v
                   else v.(refs := v.refs + multiset{BufRef(id)}, pendingReads := v.pendingReads + [id])
    {
      answer := NextAnswer(w);
      w := SkipAnswer(w);
      if answer == Accepted {
        w := w.(refs := w.refs + multiset{BufRef(id)}, pendingReads := w.pendingReads + [id]);
      }
    }

    /** A report carries the poller's reference to the oldest write. */
    method TakeWrite() returns (id: nat)
      requires w.pendingWrites != []
      modifies this
      ensures id == old(w).pendingWrites[0].payload.id
      ensures w == old(w).(pendingWrites := old(w).pendingWrites[1..], inHand := old(w).inHand + multiset{BufRef(id)})
    {
      id := w.pendingWrites[0].payload.id;
      w := w.(pendingWrites := w.pendingWrites[1..], inHand := w.inHand + multiset{BufRef(id)});
    }

    method TakeRead() returns (id: nat)
      requires w.pendingReads != []
      modifies this
      ensures id == old(w).pendingReads[0]
      ensures w == old(w).(pendingReads := old(w).pendingReads[1..], inHand := old(w).inHand + multiset{BufRef(id)})
    {
      id := w.pendingReads[0];
      w := w.(pendingReads := w.pendingReads[1..], inHand := w.inHand + multiset{BufRef(id)});
    }

    /** `sendto` */
    method SendTo(ifaces: map<string, nat>, d: Datagram) returns (again: bool, error: Option<Error>)
      modifies this
      ensures var r := SendOne(ifaces, d, old(w).sends);
              w == old(w).(sends := r.rest) && again == r.again && error == r.error
    {
      var r := SendOne(ifaces, d, w.sends);
      w := w.(sends := r.rest);
      again := r.again;
      error := r.error;
    }

    /** `sendmmsg` over the writer's first `n` descriptors, behind which the kernel finds `sees`. */
    method SendMMsg(writer: DatagramBatchWriter, n: nat, ghost sees: seq<Packed>)
      returns (count: nat, again: bool, error: Option<Error>)
      requires writer.Valid() && n == |sees| <= MAX_WRITE_BATCH
      requires forall i :: 0 <= i < n ==> writer.Seen(i) == Some(sees[i])
      modifies this
      ensures var r := SendMany(n, old(w).sends);
              w == old(w).(sends := r.rest) && count == r.sent && again == r.again && error == r.error
    {
      var r := SendMany(n, w.sends);
      w := w.(sends := r.rest);
      count := r.sent;
      again := r.again;
      error := r.error;
    }

    /** `recvfrom`: the next arrival, if there is one. */
    method RecvFrom() returns (got: Option<Arrival>)
      modifies this
      ensures got == (if old(w).arrivals == [] then None else Some(old(w).arrivals[0]))
      ensures w == if old(w).arrivals == [] then old(w) else old(w).(arrivals := old(w).arrivals[1..])
    {
      if w.arrivals == [] { return None; }
      got := Some(w.arrivals[0]);
      w := w.(arrivals := w.arrivals[1..]);
    }

    /** `recvmmsg` over the reader's first `n` descriptors, which offer the buffers `ids` of `size` bytes. */
    method RecvMMsg(reader: DatagramBatchReader, n: nat, size: nat, ghost ids: seq<nat>) returns (r: RecvResult)
      requires reader.Shape() && 0 < n == |ids| <= MAX_READ_BATCH
      requires forall i :: 0 <= i < n ==> reader.Offers(i, ids[i], size)
      modifies this, reader.headers, reader.addresses
      ensures var xs := old(w).arrivals;
              var k := PacketPrefix(xs, n);
              && r.again == (xs == []) && r.error == (xs != [] && k == 0)
              && (r.again ==> w == old(w))
              && (r.error ==> w == old(w).(arrivals := xs[1..]))
              && (!r.again && !r.error ==>
                    && r.count == k == |r.memory| && w == old(w).(arrivals := xs[k..])
                    && forall i :: 0 <= i < k ==>
                         reader.Arrived(i, xs[i], size) && r.memory[i] == Cut(xs[i].data, size))
    {
      var xs := w.arrivals;
      var k := PacketPrefix(xs, n);
      if xs == [] { return RecvResult(0, [], true, false); }
      if k == 0 {
        w := w.(arrivals := xs[1..]);
        return RecvResult(0, [], false, true);
      }
      w := w.(arrivals := xs[k..]);
      var memory: seq<seq<Byte>> := [];
      for i := 0 to k
        invariant |memory| == i && w == old(w).(arrivals := xs[k..])
        invariant forall j :: 0 <= j < i ==> memory[j] == Cut(xs[j].data, size)
        invariant forall j :: 0 <= j < i ==>
                    && reader.headers[j].length == |Cut(xs[j].data, size)| && reader.headers[j].nameLen == xs[j].length
                    && reader.addresses[j] == xs[j].from
      {
        reader.headers[i] := reader.headers[i].(length := |Cut(xs[i].data, size)|, nameLen := xs[i].length);
        reader.addresses[i] := xs[i].from;
        memory := memory + [Cut(xs[i].data, size)];
      }
      return RecvResult(k, memory, false, false);
    }
  }

  /** What the kernel finds behind one send descriptor. */
  datatype Packed = Packed(data: seq<Byte>, to: RawSockaddr, length: nat)

  function Pack(ifaces: map<string, nat>, d: Datagram): Packed
    requires Sendable(ifaces, d)
  {
    var (raw, length) := ToRawSockaddr(ifaces, d.addr).value;
    Packed(d.payload.data, raw, length)
  }

  /** A message header; its pointers are indexes into the other arrays. */
  datatype Header = Header(name: Option<nat>, nameLen: nat, iov: Option<nat>, iovLen: nat, flags: nat, length: nat)

  /** A pointer to bytes, and how many of them count. */
  datatype SendVec = SendVec(base: Option<seq<Byte>>, len: nat)

  const NO_HEADER := Header(None, 0, None, 0, 0, 0)

  class DatagramBatchWriter {
    const headers: array<Header>
    const iovecs: array<SendVec>
    const addresses: array<RawSockaddr>

    ghost predicate Valid() {
      headers.Length == iovecs.Length == addresses.Length == MAX_WRITE_BATCH
    }

    ghost function Arrays(): set<object> { {headers as object, iovecs as object, addresses as object} }

    constructor ()
      ensures Valid() && fresh(Arrays())
    {
      headers := new Header[MAX_WRITE_BATCH](_ => NO_HEADER);
      iovecs := new SendVec[MAX_WRITE_BATCH](_ => SendVec(None, 0));
      addresses := new RawSockaddr[MAX_WRITE_BATCH](_ => RawOther(0));
    }

    /** What the kernel finds behind descriptor `i`; an empty payload leaves an old base pointer in place. */
    ghost function Seen(i: nat): Option<Packed>
      requires Valid() && i < MAX_WRITE_BATCH
      reads headers, iovecs, addresses
    {
      var h, v := headers[i], iovecs[i];
      if h.name == Some(i) && h.iov == Some(i) && h.iovLen == 1 then
        if v.len == 0 then Some(Packed([], addresses[i], h.nameLen))
        else if v.base.Some? && v.len <= |v.base.value| then Some(Packed(v.base.value[..v.len], addresses[i], h.nameLen))
        else None
      else None
    }

    /** `prepareMultiMessage` */
    method Prepare(ifaces: map<string, nat>, i: nat, d: Datagram) returns (error: Option<Error>)
      requires Valid() && i < MAX_WRITE_BATCH
      modifies headers, iovecs, addresses
      ensures error == (if Sendable(ifaces, d) then None else Some(ErrInvalidAddress))
      ensures error.None? ==> Seen(i) == Some(Pack(ifaces, d))
      ensures forall j :: 0 <= j < MAX_WRITE_BATCH && j != i ==>
                headers[j] == old(headers[j]) && iovecs[j] == old(iovecs[j]) && addresses[j] == old(addresses[j])
    {
      var raw := ToRawSockaddr(ifaces, d.addr);
      if raw.Failure? { return Some(raw.error); }
      addresses[i] := raw.value.0;
      var payload := d.payload.data;
      if |payload| != 0 {
        iovecs[i] := iovecs[i].(base := Some(payload));
      }
      iovecs[i] := iovecs[i].(len := |payload|);
      headers[i] := headers[i].(name := Some(i), iov := Some(i), iovLen := 1);
      headers[i] := headers[i].(nameLen := raw.value.1);
      assert payload[..|payload|] == payload;
      return None;
    }

    /**
     * The Linux writer: whatever earlier sends left in the arrays, the kernel finds exactly the batch, or the first 64
     * of a longer list.
     */
    method SendLinux(env: Env, ifaces: map<string, nat>, datagrams: seq<Datagram>)
      returns (sent: nat, again: bool, error: Option<Error>)
      requires Valid()
      modifies env, headers, iovecs, addresses
      ensures var r := LinuxSend(ifaces, datagrams[..Min(MAX_WRITE_BATCH, |datagrams|)], old(env.w).sends);
              env.w == old(env.w).(sends := r.rest) && sent == r.sent && again == r.again && error == r.error
      ensures var batch := datagrams[..Min(MAX_WRITE_BATCH, |datagrams|)];
              |batch| > 1 && error != Some(ErrInvalidAddress) ==>
                forall i :: 0 <= i < |batch| ==> Sendable(ifaces, batch[i]) && Seen(i) == Some(Pack(ifaces, batch[i]))
    {
      hide Sendable; hide Pack; hide SendMany;
      var batch := datagrams;
      if |batch| == 0 { return 0, false, None; }
      if |batch| == 1 {
        again, error := env.SendTo(ifaces, batch[0]);
        if error.Some? || again { return 0, again, error; }
        return 1, false, None;
      }
      if |batch| > MAX_WRITE_BATCH { batch := batch[..MAX_WRITE_BATCH]; }
      for index := 0 to |batch|
        invariant forall i :: 0 <= i < index ==> Sendable(ifaces, batch[i]) && Seen(i) == Some(Pack(ifaces, batch[i]))
        invariant env.w == old(env.w)
      {
        var bad := Prepare(ifaces, index, batch[index]);
        if bad.Some? { return 0, false, bad; }
      }
      ghost var sees := seq(|batch|, i requires 0 <= i < |batch| => Pack(ifaces, batch[i]));
      sent, again, error := env.SendMMsg(this, |batch|, sees);
    }

    /** The portable writer: one datagram at a time. */
    method SendFallback(env: Env, ifaces: map<string, nat>, batch: seq<Datagram>)
      returns (sent: nat, again: bool, error: Option<Error>)
      modifies env
      ensures var r := FallbackSend(ifaces, batch, old(env.w).sends, 0);
              env.w == old(env.w).(sends := r.rest) && sent == r.sent && again == r.again && error == r.error
    {
      for index := 0 to |batch|
        invariant FallbackSend(ifaces, batch, old(env.w).sends, 0) == FallbackSend(ifaces, batch, env.w.sends, index)
        invariant env.w == old(env.w).(sends := env.w.sends)
      {
        again, error := env.SendTo(ifaces, batch[index]);
        if error.Some? { return index, false, error; }
        if again { return index, true, None; }
      }
      return |batch|, false, None;
    }
  }

  // ---- receiving ----

  /** A pointer to a buffer's memory, and its size. */
  datatype ReceiveVec = ReceiveVec(base: Option<nat>, len: nat)

  /** What one `recvmmsg` did: a count, the bytes it left in the buffers, would-block or an error. */
  datatype RecvResult = RecvResult(count: nat, memory: seq<seq<Byte>>, again: bool, error: bool)

  class DatagramBatchReader {
    const messages: array<Option<Inbound>>
    const buffers: array<Option<nat>>
    const headers: array<Header>
    const iovecs: array<ReceiveVec>
    const addresses: array<KernelSockaddr>

    ghost predicate Shape() {
      && messages.Length == buffers.Length == headers.Length == iovecs.Length == addresses.Length == MAX_READ_BATCH
      && messages as object != buffers && messages as object != headers && messages as object != iovecs
      && messages as object != addresses && buffers as object != headers && buffers as object != iovecs
      && buffers as object != addresses && headers as object != iovecs && headers as object != addresses
      && iovecs as object != addresses
    }

    /** No slot keeps a buffer between calls. */
    ghost predicate Valid()
      reads buffers
    {
      Shape() && forall i :: 0 <= i < MAX_READ_BATCH ==> buffers[i] == None
    }

    /** The slots from `start` on hold the buffers `ids[start..]`, and no others. */
    ghost predicate Holds(ids: seq<nat>, start: nat)
      reads buffers
    {
      && Shape() && |ids| <= MAX_READ_BATCH
      && (forall i :: 0 <= i < MAX_READ_BATCH && (i < start || i >= |ids|) ==> buffers[i] == None)
      && (forall i :: start <= i < |ids| ==> buffers[i] == Some(ids[i]))
    }

    /** Descriptor `i` offers the kernel buffer `id` with room for `size` bytes, and a place for the address. */
    ghost predicate Offers(i: nat, id: nat, size: nat)
      requires Shape() && i < MAX_READ_BATCH
      reads headers, iovecs
    {
      headers[i] == Header(Some(i), SOCKADDR_ROOM, Some(i), 1, 0, 0) && iovecs[i] == ReceiveVec(Some(id), size)
    }

    /** Descriptor `i` points nowhere. */
    ghost predicate Cleared(i: nat)
      requires Shape() && i < MAX_READ_BATCH
      reads headers, iovecs
    {
      headers[i].name == None && headers[i].iov == None && iovecs[i].base == None
    }

    ghost function Arrays(): set<object> {
      {messages as object, buffers as object, headers as object, iovecs as object, addresses as object}
    }

    constructor ()
      ensures Valid() && fresh(Arrays())
      ensures forall i :: 0 <= i < messages.Length ==> messages[i] == None
    {
      messages := new Option<Inbound>[MAX_READ_BATCH](_ => None);
      buffers := new Option<nat>[MAX_READ_BATCH](_ => None);
      headers := new Header[MAX_READ_BATCH](_ => NO_HEADER);
      iovecs := new ReceiveVec[MAX_READ_BATCH](_ => ReceiveVec(None, 0));
      addresses := new KernelSockaddr[MAX_READ_BATCH](_ => RawOther(0));
    }

    /** `releaseBuffers` */
    method ReleaseBuffers(env: Env, start: nat, end: nat, ghost ids: seq<nat>)
      requires start <= end == |ids| && Holds(ids, start)
      requires BufRefs(ids[start..]) <= env.w.inHand <= env.w.refs
      modifies env, buffers
      ensures env.w == W.DiscardAll(old(env.w), ids[start..]) && Valid()
    {
      hide W.DiscardAll; hide W.Discard; hide BufRefs;
      ghost var w0 := env.w;
      NothingDiscarded(w0);
      assert ids[start..start] == [];
      for index := start to end
        invariant Holds(ids, index)
        invariant env.w == W.DiscardAll(w0, ids[start..index])
      {
        if buffers[index].Some? {
          DiscardNext(w0, ids, start, index);
          env.Discard(buffers[index].value);
          buffers[index] := None;
        }
      }
      assert ids[start..end] == ids[start..];
    }

    /** `resetDescriptors` */
    method ResetDescriptors(count: nat)
      requires Shape() && count <= MAX_READ_BATCH
      modifies headers, iovecs
      ensures forall i :: 0 <= i < count ==> Cleared(i)
    {
      for index := 0 to count
        invariant forall i :: 0 <= i < index ==> headers[i].name == None && headers[i].iov == None
        invariant forall i :: 0 <= i < index ==> iovecs[i].base == None
      {
        headers[index] := headers[index].(name := None);
        headers[index] := headers[index].(iov := None);
        iovecs[index] := iovecs[index].(base := None);
      }
    }

    /** `unpack`: message `i` takes buffer `i` out of its slot; from a bad address on the buffers go back. */
    method Unpack(env: Env, size: nat, memory: seq<seq<Byte>>, ghost packets: seq<Arrival>, count: nat, prepared: nat,
                  ghost ids: seq<nat>)
      returns (n: nat, error: Option<Error>)
      requires count == |packets| == |memory| <= prepared == |ids| && Holds(ids, 0)
      requires BufRefs(ids) <= env.w.inHand <= env.w.refs
      requires forall i :: 0 <= i < count ==> packets[i].Packet?
      requires forall i :: 0 <= i < count ==> Arrived(i, packets[i], size) && memory[i] == Cut(packets[i].data, size)
      modifies env, buffers, messages
      ensures var r := W.Unpack(old(env.w), size, packets, ids, []);
              && env.w == r.w && error == r.error && n == |r.messages| <= MAX_READ_BATCH
              && forall i :: 0 <= i < n ==> messages[i] == Some(r.messages[i])
      ensures forall i :: n <= i < MAX_READ_BATCH ==> messages[i] == old(messages[i])
      ensures Valid()
    {
      hide W.DiscardAll; hide BufRefs; hide FromRawSockaddr; hide W.Unpack; hide Payloads;
      ghost var done: seq<Inbound> := [];
      ghost var w0 := env.w;
      for index := 0 to count
        invariant |done| == index && Holds(ids, index) && env.w == w0
        invariant W.Unpack(w0, size, packets, ids, []) == W.Unpack(w0, size, packets, ids, done)
        invariant forall i :: 0 <= i < index ==> messages[i] == Some(done[i])
        invariant forall i :: index <= i < MAX_READ_BATCH ==> messages[i] == old(messages[i])
      {
        UnpackStep(w0, size, packets, ids, done);
        var payload := buffers[index].value;
        var length := W.Min(headers[index].length, size);
        assert Arrived(index, packets[index], size);
        assert memory[index][..length] == Cut(packets[index].data, size);
        var addr := FromRawSockaddr(addresses[index], headers[index].nameLen);
        if addr.Failure? {
          BufRefsSplit(ids, index);
          ReleaseBuffers(env, index, prepared, ids);
          return index, Some(addr.error);
        }
        var message := Inbound(Buf(payload, memory[index][..length]), addr.value);
        messages[index] := Some(message);
        buffers[index] := None;
        done := done + [message];
      }
      UnpackStep(w0, size, packets, ids, done);
      BufRefsSplit(ids, count);
      ReleaseBuffers(env, count, prepared, ids);
      return count, None;
    }

    /** What the kernel has put behind descriptor `i`. */
    ghost predicate Arrived(i: nat, packet: Arrival, size: nat)
      requires Shape() && i < MAX_READ_BATCH && packet.Packet?
      reads headers, addresses
    {
      headers[i].length == |Cut(packet.data, size)| && headers[i].nameLen == packet.length && addresses[i] == packet.from
    }

    /** `datagramBatchReader.receive` on Linux: the first `n` messages are the batch. */
    method ReceiveLinux(env: Env, size: nat, limit: int) returns (n: nat, drained: bool, error: Option<Error>)
      requires Valid() && env.w.inHand <= env.w.refs
      modifies env, buffers, messages, headers, iovecs, addresses
      ensures var r := ReceiveBatch(true, old(env.w), size, limit);
              && env.w == r.w && drained == r.drained && error == r.error && n == |r.messages| <= MAX_READ_BATCH
              && forall i :: 0 <= i < n ==> messages[i] == Some(r.messages[i])
      ensures forall i :: n <= i < MAX_READ_BATCH ==> messages[i] == old(messages[i])
      ensures Valid()
      ensures error != Some(ErrAllocator) ==> forall i :: 0 <= i < W.Min(limit, MAX_READ_BATCH) ==> Cleared(i)
    {
      hide W.DiscardAll; hide BufRefs; hide W.Unpack; hide W.Prepare; hide FromRawSockaddr;
      var room := W.Min(limit, MAX_READ_BATCH);
      if room <= 0 { return 0, true, None; }
      ghost var w0 := env.w;
      var ok, ids := Prepare(env, size, room);
      if !ok { return 0, false, Some(ErrAllocator); }
      ghost var w1 := env.w;
      var r := env.RecvMMsg(this, room, size, ids);
      assert ids[0..] == ids;
      if r.again {
        ReleaseBuffers(env, 0, room, ids);
        ResetDescriptors(room);
        return 0, true, None;
      }
      if r.error {
        ReleaseBuffers(env, 0, room, ids);
        ResetDescriptors(room);
        return 0, false, Some(ErrSocket);
      }
      n, error := Unpack(env, size, r.memory, w1.arrivals[..r.count], r.count, room, ids);
      ResetDescriptors(room);
      drained := r.count < room;
    }

    /** The portable receiver's loop. */
    method ReceiveFallback(env: Env, size: nat, limit: int) returns (n: nat, drained: bool, error: Option<Error>)
      requires Valid() && env.w.inHand <= env.w.refs
      modifies env, messages
      ensures var r := ReceiveBatch(false, old(env.w), size, limit);
              && env.w == r.w && drained == r.drained && error == r.error && n == |r.messages| <= MAX_READ_BATCH
              && forall i :: 0 <= i < n ==> messages[i] == Some(r.messages[i])
      ensures forall i :: n <= i < MAX_READ_BATCH ==> messages[i] == old(messages[i])
      ensures Valid()
    {
      hide W.ReceiveSingle;
      var room := W.Min(limit, MAX_READ_BATCH);
      if room <= 0 { return 0, true, None; }
      ghost var done: seq<Inbound> := [];
      ghost var w0 := env.w;
      for index := 0 to room
        invariant |done| == index && Valid() && env.w.inHand <= env.w.refs
        invariant FallbackReceive(w0, size, room, []) == FallbackReceive(env.w, size, room, done)
        invariant forall i :: 0 <= i < index ==> messages[i] == Some(done[i])
        invariant forall i :: index <= i < MAX_READ_BATCH ==> messages[i] == old(messages[i])
      {
        ghost var w1 := env.w;
        var message, empty, failure := ReceiveOne(env, size);
        if message.None? { return index, empty, failure; }
        messages[index] := message;
        done := done + [message.value];
      }
      return room, false, None;
    }

    /** `prepare`: a buffer and a descriptor for every slot, or neither buffers nor success. */
    method Prepare(env: Env, size: nat, limit: nat) returns (ok: bool, ghost ids: seq<nat>)
      requires Valid() && limit <= MAX_READ_BATCH && env.w.inHand <= env.w.refs
      modifies env, buffers, headers, iovecs
      ensures var r := W.Prepare(old(env.w), limit, []);
              env.w == r.0 && ok == r.1.Some? && (ok ==> r.1 == Some(ids) && |ids| == limit)
      ensures env.w.inHand <= env.w.refs
      ensures ok ==> Holds(ids, 0) && forall i :: 0 <= i < limit ==> Offers(i, ids[i], size)
      ensures ok ==> BufRefs(ids) <= env.w.inHand
      ensures !ok ==> Valid()
    {
      hide W.DiscardAll; hide BufRefs; hide W.AcquireBuf; hide W.Prepare;
      ids := [];
      NoBufs();
      ghost var w0 := env.w;
      for index := 0 to limit
        invariant |ids| == index && Holds(ids, 0) && W.Prepare(w0, limit, []) == W.Prepare(env.w, limit, ids)
        invariant BufRefs(ids) <= env.w.inHand <= env.w.refs
        invariant forall i :: 0 <= i < index ==> Offers(i, ids[i], size)
      {
        AcquireHand(env.w);
        AcquireRefs(env.w);
        PrepareStep(env.w, limit, ids);
        var payload := env.AcquireBuf();
        if payload.None? {
          assert ids[0..] == ids;
          ghost var w1 := env.w;
          ReleaseBuffers(env, 0, index, ids);
          DiscardKeepsRefs(w1, ids);
          ok := false;
          return;
        }
        BufRefsAppend(ids, payload.value);
        buffers[index] := Some(payload.value);
        iovecs[index] := ReceiveVec(Some(payload.value), size);
        headers[index] := headers[index].(name := Some(index), nameLen := SOCKADDR_ROOM);
        headers[index] := headers[index].(iov := Some(index), iovLen := 1, flags := 0, length := 0);
        ids := ids + [payload.value];
      }
      PrepareStep(env.w, limit, ids);
      ok := true;
    }
  }

  lemma PrepareStep(w: World, limit: nat, ids: seq<nat>)
    requires |ids| <= limit
    ensures var (w1, got) := W.AcquireBuf(w);
            W.Prepare(w, limit, ids) ==
            if |ids| == limit then (w, Some(ids))
            else if got.None? then (W.DiscardAll(w1, ids), None)
            else W.Prepare(w1, limit, ids + [got.value])
  {
  }

  /** `receiveSingleDatagram` */
  method ReceiveOne(env: Env, size: nat) returns (message: Option<Inbound>, drained: bool, error: Option<Error>)
    requires env.w.inHand <= env.w.refs
    modifies env
    ensures var r := ReceiveSingle(old(env.w), size);
            && env.w == r.w && drained == r.drained && error == r.error
            && r.messages == (if message.Some? then [message.value] else [])
    ensures env.w.inHand <= env.w.refs
  {
    hide W.AcquireBuf; hide W.Discard; hide FromRawSockaddr;
    AcquireHand(env.w);
    AcquireRefs(env.w);
    var payload := env.AcquireBuf();
    if payload.None? { return None, false, Some(ErrAllocator); }
    DiscardOneKeepsRefs(env.w, payload.value);
    var got := env.RecvFrom();
    DiscardOneKeepsRefs(env.w, payload.value);
    if got.None? {
      env.Discard(payload.value);
      return None, true, None;
    }
    if got.value.SocketFailure? {
      env.Discard(payload.value);
      return None, false, Some(ErrSocket);
    }
    var addr := FromRawSockaddr(got.value.from, got.value.length);
    if addr.Failure? {
      env.Discard(payload.value);
      return None, false, Some(addr.error);
    }
    if !addr.value.Valid() {
      env.Discard(payload.value);
      return None, true, None;
    }
    return Some(Inbound(Buf(payload.value, Cut(got.value.data, size)), addr.value)), false, None;
  }

  lemma DiscardOneKeepsRefs(w: World, id: nat)
    requires w.inHand <= w.refs
    ensures W.Discard(w, id).inHand <= W.Discard(w, id).refs
  {
  }

  lemma UnpackStep(w: World, size: nat, packets: seq<Arrival>, ids: seq<nat>, done: seq<Inbound>)
    requires |done| <= |packets| <= |ids|
    requires forall i :: 0 <= i < |packets| ==> packets[i].Packet?
    ensures var index := |done|;
            W.Unpack(w, size, packets, ids, done) ==
            if index == |packets| then Received(done, |packets| < |ids|, None, W.DiscardAll(w, ids[index..]))
            else
              var addr := FromRawSockaddr(packets[index].from, packets[index].length);
              if addr.Failure? then Received(done, |packets| < |ids|, Some(addr.error), W.DiscardAll(w, ids[index..]))
              else
                W.Unpack(w, size, packets, ids, done + [Inbound(Buf(ids[index], Cut(packets[index].data, size)), addr.value)])
  {
  }

  const SOCKADDR_ROOM := 112

  lemma NothingDiscarded(w: World)
    ensures W.DiscardAll(w, []) == w
  {
    NoBufs();
    assert w.refs - multiset{} == w.refs && w.inHand - multiset{} == w.inHand;
  }

  lemma Peel(a: multiset<Resource>, xs: multiset<Resource>, x: Resource)
    requires xs + multiset{x} <= a
    ensures x in a - xs && (a - xs) - multiset{x} == a - (xs + multiset{x})
  {
    assert (xs + multiset{x})[x] == xs[x] + 1;
  }

  /** Releasing slot by slot releases the whole range. */
  lemma DiscardNext(w: World, ids: seq<nat>, start: nat, index: nat)
    requires start <= index < |ids| && BufRefs(ids[start..]) <= w.inHand <= w.refs
    ensures var v := W.DiscardAll(w, ids[start..index]);
            && BufRef(ids[index]) in v.inHand && BufRef(ids[index]) in v.refs
            && W.Discard(v, ids[index]) == W.DiscardAll(w, ids[start..index + 1])
  {
    hide Bufs;
    var xs, x := ids[start..index], ids[index];
    assert ids[start..index + 1] == xs + [x];
    BufRefsAppend(xs, x);
    BufRefsSplit(ids[start..], index - start + 1);
    assert ids[start..][..index - start + 1] == xs + [x];
    Peel(w.inHand, BufRefs(xs), BufRef(x));
    Peel(w.refs, BufRefs(xs), BufRef(x));
  }

  lemma AcquireRefs(w: World)
    requires w.inHand <= w.refs
    ensures W.AcquireBuf(w).0.inHand <= W.AcquireBuf(w).0.refs
  {
  }

  lemma DiscardKeepsRefs(w: World, ids: seq<nat>)
    requires w.inHand <= w.refs
    ensures W.DiscardAll(w, ids).inHand <= W.DiscardAll(w, ids).refs
  {
  }
}
