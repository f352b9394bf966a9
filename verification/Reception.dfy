/**
 * What reaches the handlers: the two batched receivers agree, and reading a ready socket hands on exactly the
 * datagrams at its head, in order, however it is cut into batches and whatever the handlers do meanwhile.
 */
module Reception {
  import opened Wrappers
  import opened Addresses
  import opened World
  import opened EndpointState
  import opened EndpointSpec
  import opened Receiving
  import opened Frames

  /** A datagram from a sender whose address can be decoded. */
  predicate Good(a: Arrival) { a.Packet? && FromRawSockaddr(a.from, a.length).Success? }

  /** A datagram as a handler sees it: its bytes and its sender. */
  datatype Letter = Letter(data: seq<Byte>, from: SocketAddress)

  function Contents(ms: seq<Inbound>): seq<Letter> {
    seq(|ms|, i requires 0 <= i < |ms| => Letter(ms[i].payload.data, ms[i].from))
  }

  function Opened(a: Arrival, size: nat): Letter
    requires Good(a)
  {
    Letter(Cut(a.data, size), FromRawSockaddr(a.from, a.length).value)
  }

  /** What the first arrivals look like to a handler. */
  function Letters(xs: seq<Arrival>, size: nat): seq<Letter>
    requires forall i :: 0 <= i < |xs| ==> Good(xs[i])
  {
    seq(|xs|, i requires 0 <= i < |xs| => Opened(xs[i], size))
  }

  /** The handlers see as much of a datagram as fits into a buffer, all of it if it fits, and who sent it. */
  lemma OpenedExact(a: Arrival, size: nat)
    requires Good(a)
    ensures var l := Opened(a, size);
            && l.data <= a.data && |l.data| == Min(|a.data|, size) && (|a.data| <= size ==> l.data == a.data)
            && FromRawSockaddr(a.from, a.length) == Success(l.from)
  {
    hide FromRawSockaddr;
  }

  /** How many datagrams are ahead of the first thing that cannot be handed on. */
  function GoodPrefix(xs: seq<Arrival>): (k: nat)
    ensures k <= |xs| && (k < |xs| ==> !Good(xs[k]))
    ensures forall i :: 0 <= i < k ==> Good(xs[i])
  {
    if xs == [] || !Good(xs[0]) then 0 else 1 + GoodPrefix(xs[1..])
  }

  lemma GoodPrefixIs(xs: seq<Arrival>, k: nat)
    requires k <= |xs| && (k < |xs| ==> !Good(xs[k])) && forall i :: 0 <= i < k ==> Good(xs[i])
    ensures GoodPrefix(xs) == k
  {
    hide Good;
  }

  lemma GoodPrefixRest(xs: seq<Arrival>, k: nat)
    requires k <= GoodPrefix(xs)
    ensures GoodPrefix(xs[k..]) == GoodPrefix(xs) - k
  {
    hide Good;
    GoodPrefixIs(xs[k..], GoodPrefix(xs) - k);
  }

  /** The allocator and the socket cause no error. */
  predicate Fair(w: World) { w.grants == [] && GoodPrefix(w.arrivals) == |w.arrivals| }

  lemma DecodedIsValid(a: Arrival)
    requires Good(a)
    ensures FromRawSockaddr(a.from, a.length).value.Valid()
  {
  }

  /**
   * What one receive with room for some datagrams returns: the next ones, fewer than there is room for only if it
   * says why, and all that are ahead of a failure of the socket or an address unless it reports an error.
   */
  ghost predicate Receives(w: World, size: nat, room: nat, r: Received) {
    var k := |r.messages|;
    && k <= Min(GoodPrefix(w.arrivals), room) && Contents(r.messages) == Letters(w.arrivals[..k], size)
    && (if k == room then r.error.None? && !r.drained else r.error.Some? || r.drained)
    && (r.error.None? ==> r.w.arrivals == w.arrivals[k..] && k == Min(GoodPrefix(w.arrivals), room))
    && (w.grants == [] ==>
          && r.w.grants == [] && k == Min(GoodPrefix(w.arrivals), room)
          && (r.error.Some? ==> GoodPrefix(w.arrivals) < |w.arrivals|))
  }

  /** Nothing came: the socket had nothing, or an error, or a buffer could not be had. */
  lemma EmptyHanded(w: World, size: nat, room: nat, r: Received)
    requires room > 0 && r.messages == []
    requires r.error.Some? || (r.drained && w.arrivals == [] && r.w.arrivals == [])
    requires w.grants == [] ==> r.w.grants == [] && if w.arrivals == [] then r.error.None? else !Good(w.arrivals[0])
    ensures Receives(w, size, room, r)
  {
    hide Good;
    assert Letters(w.arrivals[..0], size) == [] == Contents([]);
  }

  lemma OneHanded(w: World, size: nat, r: Received)
    requires w.arrivals != [] && Good(w.arrivals[0]) && |r.messages| == 1 && r.error.None? && !r.drained
    requires Letter(r.messages[0].payload.data, r.messages[0].from) == Opened(w.arrivals[0], size)
    requires r.w.arrivals == w.arrivals[1..] && (w.grants == [] ==> r.w.grants == [])
    ensures Receives(w, size, 1, r)
  {
    hide Good; hide Opened;
    assert Contents(r.messages) == [Opened(w.arrivals[0], size)];
    assert Letters(w.arrivals[..1], size) == [Opened(w.arrivals[0], size)];
  }

  lemma SingleReceives(w: World, size: nat)
    ensures Receives(w, size, 1, ReceiveSingle(w, size))
  {
    hide FromRawSockaddr; hide Receives;
    var r := ReceiveSingle(w, size);
    if w.arrivals != [] && Good(w.arrivals[0]) { DecodedIsValid(w.arrivals[0]); }
    if r.messages == [] { EmptyHanded(w, size, 1, r); } else { OneHanded(w, size, r); }
  }

  /** The first datagram, and then the others. */
  lemma ReceivesMore(w: World, size: nat, one: Received, n: nat, r: Received)
    requires Receives(w, size, 1, one) && one.messages != [] && n > 0 && Receives(one.w, size, n - 1, r)
    ensures Receives(w, size, n, r.(messages := one.messages + r.messages))
  {
    hide Good; hide GoodPrefix; hide Opened;
    var k := |r.messages|;
    GoodPrefixRest(w.arrivals, 1);
    assert w.arrivals[..1] + w.arrivals[1..][..k] == w.arrivals[..k + 1];
    LettersConcat(w.arrivals[..1], w.arrivals[1..][..k], size);
    ContentsConcat(one.messages, r.messages);
    assert w.arrivals[1..][k..] == w.arrivals[k + 1..];
  }

  lemma {:induction false} FallbackReceives(w: World, size: nat, limit: nat, done: seq<Inbound>)
    requires |done| <= limit
    ensures var r := FallbackReceive(w, size, limit, done);
            && done <= r.messages
            && Receives(w, size, limit - |done|, r.(messages := r.messages[|done|..]))
    decreases limit - |done|
  {
    hide ReceiveSingle; hide Good; hide Receives; hide GoodPrefix;
    var r := FallbackReceive(w, size, limit, done);
    if |done| == limit {
      NoneReceived(w, size);
      assert r.messages[|done|..] == [];
    } else {
      SingleReceives(w, size);
      var one := ReceiveSingle(w, size);
      if one.messages == [] {
        NoRoomLeft(w, size, limit - |done|, one);
        assert r.messages[|done|..] == [];
      } else {
        var next := done + [one.messages[0]];
        FallbackReceives(one.w, size, limit, next);
        assert next == done + one.messages;
        assert r.messages[|done|..] == one.messages + r.messages[|next|..];
        ReceivesMore(w, size, one, limit - |done|, r.(messages := r.messages[|next|..]));
      }
    }
  }

  lemma NoneReceived(w: World, size: nat)
    ensures Receives(w, size, 0, Received([], false, None, w))
  {
    hide Good;
    assert Letters(w.arrivals[..0], size) == [] == Contents([]);
  }

  /** Nothing came although there was room for one, so nothing comes however much room there is. */
  lemma NoRoomLeft(w: World, size: nat, n: nat, r: Received)
    requires Receives(w, size, 1, r) && r.messages == [] && n > 0
    ensures Receives(w, size, n, r)
  {
    hide Good;
  }

  // ---- the Linux receiver ----

  lemma {:induction false} PrepareAll(w: World, limit: nat, ids: seq<nat>)
    requires |ids| <= limit
    ensures var (r, got) := Prepare(w, limit, ids);
            w.grants == [] ==> got.Some? && |got.value| == limit && r.grants == []
    decreases limit - |ids|
  {
    if |ids| < limit {
      var (w1, got) := AcquireBuf(w);
      if got.Some? { PrepareAll(w1, limit, ids + [got.value]); }
    }
  }

  lemma {:induction false} PrefixEnds(xs: seq<Arrival>, n: nat)
    ensures var k := PacketPrefix(xs, n); k < n && k < |xs| ==> !xs[k].Packet?
    decreases n
  {
    if n > 0 && xs != [] && xs[0].Packet? { PrefixEnds(xs[1..], n - 1); }
  }

  lemma {:induction false} UnpackReceives(w: World, size: nat, packets: seq<Arrival>, ids: seq<nat>, done: seq<Inbound>)
    requires |done| <= |packets| <= |ids| && |done| <= GoodPrefix(packets)
    requires forall i :: 0 <= i < |packets| ==> packets[i].Packet?
    requires Contents(done) == Letters(packets[..|done|], size)
    ensures var r := Unpack(w, size, packets, ids, done);
            var k := GoodPrefix(packets);
            && |r.messages| == k && Contents(r.messages) == Letters(packets[..k], size)
            && r.drained == (|packets| < |ids|) && (r.error.None? <==> k == |packets|)
            && r.w.arrivals == w.arrivals && r.w.grants == w.grants
    decreases |packets| - |done|
  {
    hide FromRawSockaddr; hide GoodPrefix;
    var k := |done|;
    if k < |packets| && Good(packets[k]) {
      var m := Inbound(Buf(ids[k], Cut(packets[k].data, size)), FromRawSockaddr(packets[k].from, packets[k].length).value);
      ContentsAppend(done, m);
      LettersAppend(packets[..k], packets[k], size);
      assert packets[..k + 1] == packets[..k] + [packets[k]];
      UnpackReceives(w, size, packets, ids, done + [m]);
    }
  }

  lemma LinuxReceives(w: World, size: nat, limit: nat)
    requires limit > 0
    ensures Receives(w, size, limit, LinuxReceive(w, size, limit))
  {
    hide Prepare; hide Unpack; hide FromRawSockaddr; hide GoodPrefix; hide Receives;
    PrepareAll(w, limit, []);
    var (w1, prepared) := Prepare(w, limit, []);
    var r := LinuxReceive(w, size, limit);
    if prepared.Some? {
      var xs := w.arrivals;
      var count := PacketPrefix(xs, limit);
      PrefixEnds(xs, limit);
      if xs == [] || count == 0 {
        EmptyHanded(w, size, limit, r);
      } else {
        assert Letters(xs[..count][..0], size) == [] == Contents([]);
        UnpackReceives(w1.(arrivals := xs[count..]), size, xs[..count], prepared.value, []);
        FromPackets(w, size, limit, count, r);
      }
    } else {
      EmptyHanded(w, size, limit, r);
    }
  }

  lemma FromPackets(w: World, size: nat, room: nat, count: nat, r: Received)
    requires 0 < count <= room && count <= |w.arrivals|
    requires count < room && count < |w.arrivals| ==> !w.arrivals[count].Packet?
    requires var k := GoodPrefix(w.arrivals[..count]);
             && |r.messages| == k && Contents(r.messages) == Letters(w.arrivals[..count][..k], size)
             && r.drained == (count < room) && (r.error.None? <==> k == count)
    requires r.w.arrivals == w.arrivals[count..] && (w.grants == [] ==> r.w.grants == [])
    ensures Receives(w, size, room, r)
  {
    hide GoodPrefix;
    var k := GoodPrefix(w.arrivals[..count]);
    assert w.arrivals[..count][..k] == w.arrivals[..k];
    assert k < count ==> w.arrivals[..count][k] == w.arrivals[k];
    if count < room || k < count { GoodPrefixIs(w.arrivals, k); }
  }

  /** The room of one receive call. */
  function Room(limit: int): (n: nat)
    requires limit > 0
    ensures 1 <= n <= limit
  {
    if limit == 1 then 1 else Min(limit, MAX_READ_BATCH)
  }

  lemma BatchReceives(linux: bool, w: World, size: nat, limit: int)
    requires limit > 0
    ensures Receives(w, size, Min(limit, MAX_READ_BATCH), ReceiveBatch(linux, w, size, limit))
  {
    hide LinuxReceive; hide FallbackReceive; hide Receives;
    var n := Min(limit, MAX_READ_BATCH);
    if linux { LinuxReceives(w, size, n); } else {
      FallbackReceives(w, size, n, []);
      var r := FallbackReceive(w, size, n, []);
      assert r.messages[0..] == r.messages;
    }
  }

  lemma InboundReceives(linux: bool, w: World, size: nat, limit: int)
    requires limit > 0
    ensures Receives(w, size, Room(limit), ReceiveInbound(linux, w, size, limit))
  {
    hide ReceiveSingle; hide ReceiveBatch; hide Receives;
    if limit == 1 { SingleReceives(w, size); } else { BatchReceives(linux, w, size, limit); }
  }

  /**
   * The batched receivers agree: over the same arrivals both return the first min(pending, limit, 64) datagrams
   * with their senders, and say the socket is drained exactly if there were fewer than they had room for.
   */
  lemma ReceiversAgree(linux: bool, w: World, size: nat, limit: int)
    requires Fair(w) && limit > 0
    ensures var n := Min(limit, MAX_READ_BATCH);
            var k := Min(|w.arrivals|, n);
            var r := ReceiveBatch(linux, w, size, limit);
            && Contents(r.messages) == Letters(w.arrivals[..k], size)
            && r.drained == (k < n) && r.error == None && r.w.arrivals == w.arrivals[k..]
  {
    hide ReceiveBatch; hide Good; hide GoodPrefix;
    BatchReceives(linux, w, size, limit);
  }

  // ---- lists of datagrams ----

  lemma ContentsAppend(ms: seq<Inbound>, m: Inbound)
    ensures Contents(ms + [m]) == Contents(ms) + [Letter(m.payload.data, m.from)]
  {
  }

  lemma ContentsConcat(xs: seq<Inbound>, ys: seq<Inbound>)
    ensures Contents(xs + ys) == Contents(xs) + Contents(ys)
  {
  }

  lemma LettersAppend(xs: seq<Arrival>, a: Arrival, size: nat)
    requires Good(a) && forall i :: 0 <= i < |xs| ==> Good(xs[i])
    ensures Letters(xs + [a], size) == Letters(xs, size) + [Opened(a, size)]
  {
  }

  lemma LettersConcat(xs: seq<Arrival>, ys: seq<Arrival>, size: nat)
    requires forall i :: 0 <= i < |xs| ==> Good(xs[i])
    requires forall i :: 0 <= i < |ys| ==> Good(ys[i])
    ensures Letters(xs + ys, size) == Letters(xs, size) + Letters(ys, size)
  {
  }

  lemma ContentsPrefix(ms: seq<Inbound>, xs: seq<Arrival>, size: nat, j: nat)
    requires forall i :: 0 <= i < |xs| ==> Good(xs[i])
    requires Contents(ms) == Letters(xs, size) && j <= |ms|
    ensures |ms| == |xs| && Contents(ms[..j]) == Letters(xs[..j], size)
  {
    hide Opened;
    assert |Contents(ms)| == |ms| && |Letters(xs, size)| == |xs|;
    assert Contents(ms[..j]) == Contents(ms)[..j];
  }

  // ---- reading a ready socket ----

  /** The state after one round of the read loop, and whether anything has been handed on. */
  ghost function Round(c: Config, s: State, remaining: int, any: bool): (r: (State, bool))
    requires c.hasChannel
    ensures Work(r.0) <= Work(s) && |r.0.w.script| <= |s.w.script|
  {
    var got := ReceiveInbound(c.linux, s.w, c.readBufferSize, remaining);
    var (s1, any1) := Dispatch(c, SetReading(s.(w := got.w), true), got.messages, any);
    (SetReading(s1, false), any1)
  }

  /** The rounds of the read loop: the state they leave, and the error of the last one. */
  ghost function Rounds(c: Config, s: State, remaining: int, any: bool): (State, bool, Option<Error>)
    requires c.hasChannel
    decreases Work(s), |s.w.script|, if remaining > 0 then remaining else 0
  {
    hide Round; hide ReceiveInbound;
    if remaining <= 0 || s.closed then (s, any, None) else
      var got := ReceiveInbound(c.linux, s.w, c.readBufferSize, remaining);
      var (t, any1) := Round(c, s, remaining, any);
      if got.error.Some? || got.drained || got.messages == [] then (t, any1, got.error)
      else Rounds(c, t, remaining - |got.messages|, any1)
  }

  /** After an error the read loop tells the pipeline and closes the endpoint. */
  ghost function Ended(c: Config, r: (State, bool, Option<Error>)): (State, bool, bool) {
    match r.2
    case None => (r.0, r.1, false)
    case Some(e) => (Close(c, Fire(c, r.0, Exception(e))).s, r.1, true)
  }

  lemma {:induction false} LoopIsRounds(c: Config, s: State, remaining: int, any: bool)
    requires c.hasChannel
    ensures ReadLoop(c, s, remaining, any) == Ended(c, Rounds(c, s, remaining, any))
    decreases Work(s), |s.w.script|, if remaining > 0 then remaining else 0
  {
    hide Dispatch; hide ReceiveInbound; hide SetReading; hide Fire; hide Close; hide Work;
    if remaining > 0 && !s.closed {
      var got := ReceiveInbound(c.linux, s.w, c.readBufferSize, remaining);
      var (t, any1) := Round(c, s, remaining, any);
      if !(got.error.Some? || got.drained || got.messages == []) {
        LoopIsRounds(c, t, remaining - |got.messages|, any1);
      }
    }
  }

  lemma DispatchExact(c: Config, s: State, ms: seq<Inbound>, any: bool) returns (j: nat)
    requires Sound(s) && c.hasChannel && s.log.reading && c.mode != Completion
    ensures var r := Dispatch(c, s, ms, any).0;
            && j <= |ms| && (!r.closed ==> j == |ms|) && Sound(r) && Dispatch(c, s, ms, any).1 == (any || j > 0)
            && r.w.arrivals == s.w.arrivals && r.w.grants == s.w.grants
            && r.log.dispatched == s.log.dispatched + ms[..j]
  {
    hide Dispatch; hide Given; hide Refs; hide Framed; hide Sound;
    j := DispatchFramed(c, s, ms, any);
    var r := Dispatch(c, s, ms, any).0;
    GivenSteady(c, s, Refs(ms), ms[..j], r);
    GivenSound(s, Refs(ms), ms[..j]);
    FramedSound(c, Given(s, Refs(ms), ms[..j]), r);
  }

  lemma GivenSteady(c: Config, s: State, rs: multiset<Resource>, ds: seq<Inbound>, r: State)
    requires Framed(c, Given(s, rs, ds), r) && s.log.reading && c.mode != Completion
    ensures r.w.arrivals == s.w.arrivals && r.w.grants == s.w.grants && r.log.dispatched == s.log.dispatched + ds
  {
  }

  /** What handlers have seen once the endpoint has gone from one state to another. */
  ghost predicate Handed(s: State, t: State, k: nat, size: nat) {
    && k <= GoodPrefix(s.w.arrivals)
    && Contents(t.log.dispatched) == Contents(s.log.dispatched) + Letters(s.w.arrivals[..k], size)
  }

  /** One round: the handlers have seen the first `j` datagrams of its batch, all if the endpoint is still open. */
  lemma RoundExact(c: Config, s: State, remaining: int, any: bool) returns (j: nat)
    requires Sound(s) && !s.closed && c.hasChannel && !s.log.reading && c.mode != Completion && remaining > 0
    ensures var got := ReceiveInbound(c.linux, s.w, c.readBufferSize, remaining);
            var r := Round(c, s, remaining, any).0;
            && Receives(s.w, c.readBufferSize, Room(remaining), got)
            && j <= |got.messages| && (!r.closed ==> j == |got.messages|)
            && Round(c, s, remaining, any).1 == (any || j > 0)
            && Sound(r) && !r.log.reading && r.w.arrivals == got.w.arrivals && r.w.grants == got.w.grants
            && Handed(s, r, j, c.readBufferSize)
  {
    hide Dispatch; hide ReceiveInbound; hide SetReading; hide Contents; hide Letters; hide Good; hide Sound; hide Room;
    hide GoodPrefix;
    var got := ReceiveInbound(c.linux, s.w, c.readBufferSize, remaining);
    InboundReceives(c.linux, s.w, c.readBufferSize, remaining);
    var s0 := SetReading(s.(w := got.w), true);
    WorldSound(s, got.w);
    SetReadingFields(s.(w := got.w), true);
    j := DispatchExact(c, s0, got.messages, any);
    SetReadingFields(Dispatch(c, s0, got.messages, any).0, false);
    var k := |got.messages|;
    ContentsPrefix(got.messages, s.w.arrivals[..k], c.readBufferSize, j);
    assert s.w.arrivals[..k][..j] == s.w.arrivals[..j];
    ContentsConcat(s.log.dispatched, got.messages[..j]);
  }

  /** The datagrams a read of the given limit may hand on: those ahead of the first failure. */
  function Due(w: World, limit: int): nat { if limit < 0 then 0 else Min(GoodPrefix(w.arrivals), limit) }

  /** What the rounds hand on, and why they end. */
  ghost predicate Exact(c: Config, s: State, remaining: int, any: bool, r: (State, bool, Option<Error>), k: nat) {
    && r.1 == (any || k > 0) && Handed(s, r.0, k, c.readBufferSize) && k <= Due(s.w, remaining)
    && (!r.0.closed && r.2.None? ==> r.0.w.arrivals == s.w.arrivals[k..])
    && (s.w.grants == [] ==>
          && (!r.0.closed ==> k == Due(s.w, remaining))
          && (r.2.Some? ==> Due(s.w, remaining) == GoodPrefix(s.w.arrivals) < |s.w.arrivals|))
  }

  lemma {:induction false} RoundsExact(c: Config, s: State, remaining: int, any: bool) returns (k: nat)
    requires Sound(s) && !s.closed && c.hasChannel && !s.log.reading && c.mode != Completion
    ensures Exact(c, s, remaining, any, Rounds(c, s, remaining, any), k)
    decreases Work(s), |s.w.script|, if remaining > 0 then remaining else 0
  {
    hide Round; hide ReceiveInbound; hide Receives; hide Sound; hide Work; hide Exact; hide Room; hide Handed;
    if remaining <= 0 {
      k := 0;
      NothingDue(c, s, remaining, any);
    } else {
      var got := ReceiveInbound(c.linux, s.w, c.readBufferSize, remaining);
      var (t, any1) := Round(c, s, remaining, any);
      k := RoundExact(c, s, remaining, any);
      if got.error.Some? || got.drained || got.messages == [] {
        LastRound(c, s, remaining, any, got, t, k);
      } else if t.closed {
        ClosedRound(c, s, remaining, any, got, t, k);
      } else {
        var i := RoundsExact(c, t, remaining - |got.messages|, any1);
        MoreRounds(c, s, remaining, any, got, t, Rounds(c, t, remaining - |got.messages|, any1), k, i);
        k := k + i;
      }
    }
  }

  lemma NothingDue(c: Config, s: State, remaining: int, any: bool)
    requires remaining <= 0
    ensures Exact(c, s, remaining, any, (s, any, None), 0)
  {
    hide Good;
    assert Letters(s.w.arrivals[..0], c.readBufferSize) == [];
  }

  lemma LastRound(c: Config, s: State, remaining: int, any: bool, got: Received, t: State, j: nat)
    requires remaining > 0 && Receives(s.w, c.readBufferSize, Room(remaining), got)
    requires got.error.Some? || got.drained || got.messages == []
    requires j <= |got.messages| && (!t.closed ==> j == |got.messages|) && t.w.arrivals == got.w.arrivals
    requires Handed(s, t, j, c.readBufferSize)
    ensures Exact(c, s, remaining, any, (t, any || j > 0, got.error), j)
  {
    hide Good; hide GoodPrefix; hide Handed; hide Letters;
  }

  lemma ClosedRound(c: Config, s: State, remaining: int, any: bool, got: Received, t: State, j: nat)
    requires remaining > 0 && Receives(s.w, c.readBufferSize, Room(remaining), got)
    requires j <= |got.messages| && t.closed && Handed(s, t, j, c.readBufferSize)
    ensures Exact(c, s, remaining, any, (t, any || j > 0, None), j)
  {
    hide Good; hide GoodPrefix; hide Handed; hide Letters;
  }

  lemma MoreRounds(c: Config, s: State, remaining: int, any: bool, got: Received, t: State, r: (State, bool, Option<Error>),
                   j: nat, i: nat)
    requires remaining > 0 && Receives(s.w, c.readBufferSize, Room(remaining), got)
    requires got.error.None? && !got.drained && j == |got.messages|
    requires t.w.arrivals == got.w.arrivals && t.w.grants == got.w.grants && Handed(s, t, j, c.readBufferSize)
    requires Exact(c, t, remaining - j, any || j > 0, r, i)
    ensures Exact(c, s, remaining, any, r, j + i)
  {
    hide Good; hide GoodPrefix; hide Handed; hide Letters; hide Contents;
    GoodPrefixRest(s.w.arrivals, j);
    HandedMore(s, t, r.0, j, i, c.readBufferSize);
    assert s.w.arrivals[j..][i..] == s.w.arrivals[j + i..];
  }

  lemma HandedMore(s: State, t: State, r: State, j: nat, i: nat, size: nat)
    requires Handed(s, t, j, size) && t.w.arrivals == s.w.arrivals[j..] && Handed(t, r, i, size)
    ensures i <= |s.w.arrivals| - j && Handed(s, r, j + i, size)
  {
    hide Good; hide GoodPrefix; hide Opened; hide Contents;
    var xs := s.w.arrivals;
    GoodPrefixRest(xs, j);
    assert xs[..j] + xs[j..][..i] == xs[..j + i];
    LettersConcat(xs[..j], xs[j..][..i], size);
  }

  /**
   * Reading a ready socket, whatever fails: the handlers are given a prefix of the arrivals, in order and each once;
   * if they leave the endpoint open and no buffer is refused, it is exactly the datagrams ahead of the first failure,
   * up to the limit, and an error is reported only if that failure was reached.
   */
  lemma ReadLoopExact(c: Config, s: State, remaining: int, any: bool) returns (k: nat)
    requires Sound(s) && !s.closed && c.hasChannel && !s.log.reading && c.mode != Completion
    ensures ReadLoop(c, s, remaining, any) == Ended(c, Rounds(c, s, remaining, any))
    ensures var (t, handed, error) := Rounds(c, s, remaining, any);
            && k <= Due(s.w, remaining) && handed == (any || k > 0)
            && Contents(t.log.dispatched) == Contents(s.log.dispatched) + Letters(s.w.arrivals[..k], c.readBufferSize)
            && (!t.closed && error.None? ==> t.w.arrivals == s.w.arrivals[k..])
            && (s.w.grants == [] && !t.closed ==> k == Due(s.w, remaining))
            && (s.w.grants == [] && error.Some? ==> Due(s.w, remaining) == GoodPrefix(s.w.arrivals) < |s.w.arrivals|)
  {
    hide Rounds; hide ReadLoop; hide Ended; hide Contents; hide Letters; hide Good; hide GoodPrefix;
    LoopIsRounds(c, s, remaining, any);
    k := RoundsExact(c, s, remaining, any);
  }

  /** Without failures that is the first min(pending, limit) of all, and the rest is left in the socket. */
  lemma FairReadExact(c: Config, s: State, remaining: int, any: bool)
    requires Sound(s) && !s.closed && c.hasChannel && !s.log.reading && c.mode != Completion
    requires Fair(s.w) && remaining >= 0
    ensures var (r, _, failed) := ReadLoop(c, s, remaining, any);
            var k := Min(|s.w.arrivals|, remaining);
            && !failed
            && (!r.closed ==>
                  && r.w.arrivals == s.w.arrivals[k..]
                  && Contents(r.log.dispatched) == Contents(s.log.dispatched) + Letters(s.w.arrivals[..k], c.readBufferSize))
  {
    hide Rounds; hide ReadLoop; hide Contents; hide Letters; hide Good; hide GoodPrefix;
    var k := ReadLoopExact(c, s, remaining, any);
  }
}
