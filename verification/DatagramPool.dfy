/**
 * Pooled inbound datagrams (datagram.go) on the heap. An envelope's address is a slice of the envelope's own array,
 * so whoever reuses the envelope overwrites the address under every copy of it.
 */
module DatagramPool {
  import opened Wrappers
  import opened Addresses
  import opened World
  import Decimal

  /** `net.IP`: the first `length` bytes of an array. */
  datatype Slice = Slice(base: array<Byte>, length: nat)

  /** `Address`, with its IP in memory. */
  datatype HeapAddress = HeapAddress(ip: Option<Slice>, port: int, zone: string)

  const EMPTY_ADDRESS := HeapAddress(None, 0, "")

  ghost predicate Readable(a: HeapAddress) { a.ip.Some? ==> a.ip.value.length <= a.ip.value.base.Length }

  ghost function Memory(a: HeapAddress): set<object> { if a.ip.Some? then {a.ip.value.base} else {} }

  /** What an address says at the moment. */
  function Read(a: HeapAddress): Address
    requires Readable(a)
    reads Memory(a)
  {
    Address(if a.ip.Some? then Some(a.ip.value.base[..a.ip.value.length]) else None, a.port, a.zone)
  }

  /** `Clone`: the copy has memory of its own. */
  method Clone(a: HeapAddress) returns (r: HeapAddress)
    requires Readable(a)
    ensures Readable(r) && fresh(Memory(r)) && Read(r) == Read(a)
  {
    if a.ip.None? { return a; }
    var from := a.ip.value;
    var copy := new Byte[from.length](i requires 0 <= i < from.length reads from.base => from.base[i]);
    assert copy[..from.length] == from.base[..from.length];
    return a.(ip := Some(Slice(copy, from.length)));
  }

  /** Where `socketAddressToAddressInto` leaves the address, given the array it writes to. */
  ghost function Placed(from: SocketAddress, storage: array<Byte>): HeapAddress {
    match from.family
    case IPv4 => HeapAddress(Some(Slice(storage, 4)), from.port, "")
    case IPv6 => HeapAddress(Some(Slice(storage, 16)), from.port, FromSocketAddress(from).zone)
    case Unspecified => EMPTY_ADDRESS
  }

  /** `socketAddressToAddressInto` */
  method Store(from: SocketAddress, storage: array<Byte>) returns (a: HeapAddress)
    requires storage.Length == 16
    modifies storage
    ensures a == Placed(from, storage) && Readable(a) && Read(a) == FromSocketAddress(from)
  {
    match from.family
    case IPv4 =>
      for i := 0 to 4
        invariant forall j :: 0 <= j < i ==> storage[j] == from.ip[j]
      {
        storage[i] := from.ip[i];
      }
      assert storage[..4] == from.ip[..4];
      return HeapAddress(Some(Slice(storage, 4)), from.port, "");
    case IPv6 =>
      var zone := "";
      if from.zoneId != 0 { zone := Decimal.Print(from.zoneId); }
      for i := 0 to 16
        invariant forall j :: 0 <= j < i ==> storage[j] == from.ip[j]
      {
        storage[i] := from.ip[i];
      }
      assert storage[..16] == from.ip;
      return HeapAddress(Some(Slice(storage, 16)), from.port, zone);
    case Unspecified =>
      return EMPTY_ADDRESS;
  }

  /** A `Datagram` in memory; the fields `pool` and `self` are set exactly while it is handed out. */
  class Envelope {
    var payload: Option<Buf>
    var addr: HeapAddress
    var pool: DatagramPool?
    var self: Envelope?
    const ip: array<Byte>

    constructor ()
      ensures fresh(ip) && ip.Length == 16
    {
      payload, addr, pool, self := None, EMPTY_ADDRESS, null, null;
      ip := new Byte[16](_ => 0);
    }
  }

  /** `Datagram` as a value: its address still lies in the envelope it was copied from. */
  datatype DatagramValue = DatagramValue(payload: Option<Buf>, addr: HeapAddress, pool: DatagramPool?, self: Envelope?)

  /** `*envelope` */
  function Copied(e: Envelope): DatagramValue
    reads e
  {
    DatagramValue(e.payload, e.addr, e.pool, e.self)
  }

  /** What an envelope was handed out with. */
  datatype Contents = Contents(payload: Buf, from: SocketAddress)

  class DatagramPool {
    var free: seq<Envelope>
    ghost var live: map<Envelope, Contents>
    ghost var Repr: set<object>

    /** Free envelopes and live ones are different, no two share memory, and live ones are as they were handed out. */
    ghost predicate Valid()
      reads this, Repr
    {
      && this in Repr
      && (forall e: Envelope :: e in Repr ==> e.ip in Repr && e.ip.Length == 16)
      && (forall e: Envelope, f: Envelope :: e in Repr && f in Repr && e.ip == f.ip ==> e == f)
      && (forall i :: 0 <= i < |free| ==> free[i] in Repr && free[i] !in live)
      && (forall i, j :: 0 <= i < j < |free| ==> free[i] != free[j])
      && (forall e :: e in live ==> e in Repr && Intact(e, live[e]))
    }

    ghost predicate Intact(e: Envelope, was: Contents)
      reads e, e.ip
    {
      && e.pool == this && e.self == e && e.payload == Some(was.payload)
      && e.ip.Length == 16 && e.addr == Placed(was.from, e.ip) && Read(e.addr) == FromSocketAddress(was.from)
    }

    constructor ()
      ensures Valid() && fresh(Repr) && live == map[] && free == []
    {
      free, live := [], map[];
      Repr := {this};
    }

    /** `sync.Pool.Get`: some free envelope, or none, whatever is in the pool. */
    method Get(choice: nat) returns (e: Envelope?)
      requires Valid()
      modifies this`free
      ensures Valid() && live == old(live)
      ensures if choice < old(|free|) then e == old(free[choice]) else e == null
      ensures e != null ==> e in Repr && e !in live && e !in free
    {
      if choice >= |free| { return null; }
      e := free[choice];
      free := free[..choice] + free[choice + 1..];
    }

    /** A new envelope is as good as one from the pool. */
    method Grow() returns (value: Envelope)
      requires Valid()
      modifies this`Repr
      ensures Valid() && fresh(value) && value in Repr && value !in live && value !in free
      ensures Repr == old(Repr) + {value, value.ip} && fresh(value.ip)
    {
      value := new Envelope();
      Repr := Repr + {value, value.ip};
    }

    /** The fields of an envelope that is handed out. */
    method Set(value: Envelope, payload: Buf, from: SocketAddress)
      requires value.ip.Length == 16
      modifies value, value.ip
      ensures Intact(value, Contents(payload, from))
    {
      hide Placed; hide FromSocketAddress;
      value.payload := Some(payload);
      value.addr := EMPTY_ADDRESS;
      value.pool := this;
      value.self := value;
      value.addr := Store(from, value.ip);
    }

    /** Hands out an envelope that is not in use. */
    method Fill(value: Envelope, payload: Buf, from: SocketAddress)
      requires Valid() && value in Repr && value !in live && value !in free
      modifies this`live, value, value.ip
      ensures Valid() && live == old(live)[value := Contents(payload, from)]
    {
      hide Intact;
      Set(value, payload, from);
      assert forall e :: e in live ==> e != value && e.ip != value.ip;
      assert forall e :: e in live ==> Intact(e, live[e]);
      live := live[value := Contents(payload, from)];
    }

    /** `acquireSocketAddress` and `acquire` */
    method AcquireSocketAddress(payload: Buf, from: SocketAddress, choice: nat) returns (value: Envelope)
      requires Valid()
      modifies Repr
      ensures Valid() && fresh(Repr - old(Repr))
      ensures value !in old(live) && live == old(live)[value := Contents(payload, from)]
      ensures if choice < old(|free|) then value == old(free[choice]) else fresh(value)
    {
      var got := Get(choice);
      if got == null { value := Grow(); } else { value := got; }
      Fill(value, payload, from);
    }

    /** `datagramPool.release` */
    method Put(value: Envelope)
      requires Valid() && value in live
      modifies this, value
      ensures Valid() && live == old(live) - {value} && Repr == old(Repr) && free == old(free) + [value]
      ensures value.pool == null && value.self == null && value.payload == None
    {
      value.payload := None;
      value.addr := EMPTY_ADDRESS;
      value.pool := null;
      value.self := null;
      free := free + [value];
      live := live - {value};
    }
  }

  /** `Datagram.Release` on a value, apart from its payload: the envelope it was copied from goes back. */
  method ReleaseValue(d: DatagramValue)
    requires d.pool != null && d.self != null ==> d.pool.Valid() && d.self in d.pool.live
    modifies d.pool, d.self
    ensures d.pool != null && d.self != null ==>
              && d.pool.Valid() && d.pool.live == old(d.pool.live) - {d.self} && d.pool.free == old(d.pool.free) + [d.self]
              && d.pool.Repr == old(d.pool.Repr)
  {
    if d.pool != null && d.self != null { d.pool.Put(d.self); }
  }

  /** `Release` through the pointer: a second one does nothing. */
  method ReleasePointer(e: Envelope, ghost pool: DatagramPool)
    requires pool.Valid() && (e in pool.live || (e.pool == null && e.self == null))
    modifies pool, e
    ensures pool.Valid() && pool.live == old(pool.live) - {e} && pool.Repr == old(pool.Repr)
    ensures e.pool == null && e.self == null
    ensures e !in old(pool.live) ==> pool.free == old(pool.free)
  {
    var d := Copied(e);
    if d.pool != null && d.self != null { d.pool.Put(d.self); }
  }

  // ---- what the holders of datagrams can rely on ----

  /** What else may happen to a pool: datagrams come, others are released, and the pool forgets free envelopes. */
  datatype Use = Acquire(payload: Buf, from: SocketAddress, choice: nat) | Release(index: nat) | Forget(index: nat)

  /** The envelopes others hold are live, not kept, and each held once. */
  ghost predicate Held(pool: DatagramPool, mine: seq<Envelope>, kept: set<Envelope>)
    reads pool
  {
    && (forall i :: 0 <= i < |mine| ==> mine[i] in pool.live && mine[i] !in kept)
    && (forall i, j :: 0 <= i < j < |mine| ==> mine[i] != mine[j])
  }

  /** One such use; `mine` are the envelopes others hold. */
  method UseOnce(pool: DatagramPool, use: Use, mine: seq<Envelope>, ghost kept: set<Envelope>) returns (rest: seq<Envelope>)
    requires pool.Valid() && kept <= pool.live.Keys && Held(pool, mine, kept)
    modifies pool.Repr
    ensures pool.Valid() && fresh(pool.Repr - old(pool.Repr)) && Held(pool, rest, kept)
    ensures kept <= pool.live.Keys && forall e :: e in kept ==> pool.live[e] == old(pool.live[e])
  {
    hide DatagramPool.Valid;
    match use
    case Acquire(payload, from, choice) =>
      var value := pool.AcquireSocketAddress(payload, from, choice);
      rest := mine + [value];
    case Release(index) =>
      rest := mine;
      if index < |mine| {
        var value := mine[index];
        LiveInRepr(pool, value);
        rest := mine[..index] + mine[index + 1..];
        pool.Put(value);
      }
    case Forget(index) =>
      rest := mine;
      PoolInRepr(pool);
      var _ := pool.Get(index);
  }

  /** However the pool is used by others, kept envelopes stay live with what they were handed out with. */
  method Churn(pool: DatagramPool, uses: seq<Use>, others: seq<Envelope>, ghost kept: set<Envelope>)
    requires pool.Valid() && kept <= pool.live.Keys && Held(pool, others, kept)
    modifies pool.Repr
    ensures pool.Valid() && fresh(pool.Repr - old(pool.Repr))
    ensures kept <= pool.live.Keys && forall e :: e in kept ==> pool.live[e] == old(pool.live[e])
  {
    hide DatagramPool.Valid; hide Held;
    var mine := others;
    for k := 0 to |uses|
      invariant pool.Valid() && fresh(pool.Repr - old(pool.Repr)) && Held(pool, mine, kept)
      invariant kept <= pool.live.Keys && forall e :: e in kept ==> pool.live[e] == old(pool.live[e])
    {
      mine := UseOnce(pool, uses[k], mine, kept);
    }
  }

  lemma LiveInRepr(pool: DatagramPool, e: Envelope)
    requires pool.Valid() && e in pool.live
    ensures e in pool.Repr && pool in pool.Repr
  {
  }

  lemma PoolInRepr(pool: DatagramPool)
    requires pool.Valid()
    ensures pool in pool.Repr
  {
  }

  /** What every copy of a live datagram says. */
  lemma LiveAddress(pool: DatagramPool, e: Envelope)
    requires pool.Valid() && e in pool.live
    ensures var from := pool.live[e].from;
            && e.ip.Length == 16 && e.addr == Placed(from, e.ip) && Readable(e.addr)
            && Read(Placed(from, e.ip)) == FromSocketAddress(from)
            && e.pool == pool && e.self == e && e !in pool.free
  {
  }

  /**
   * An echo: a handler writes back a copy of the datagram it was given, and the copy waits in the queue while the
   * pool is used for others. When it is sent, its address is the one it came from, and its release frees its envelope.
   */
  method Echo(pool: DatagramPool, payload: Buf, from: SocketAddress, choice: nat,
              uses: seq<Use>, others: seq<Envelope>, ifaces: map<string, nat>)
    returns (to: Result<SocketAddress, Error>)
    requires pool.Valid() && Held(pool, others, {})
    modifies pool.Repr
    ensures pool.Valid() && to == ToSocketAddress(ifaces, FromSocketAddress(from))
    ensures 0 <= from.port <= MAX_PORT && from.zoneId < UINT32_BOUND ==> (to == Success(from) <==> Canonical(from))
  {
    hide DatagramPool.Valid; hide ToSocketAddress; hide Placed;
    var value := pool.AcquireSocketAddress(payload, from, choice);
    LiveAddress(pool, value);
    var queued := Copied(value);
    Churn(pool, uses, others, {value});
    LiveAddress(pool, value);
    to := ToSocketAddress(ifaces, Read(queued.addr));
    LiveInRepr(pool, value);
    ReleaseValue(queued);
    if 0 <= from.port <= MAX_PORT && from.zoneId < UINT32_BOUND { SocketAddressRoundTrip(ifaces, from); }
  }

  /** A cloned address survives the release of its datagram and any later use of the pool. */
  method Forward(pool: DatagramPool, payload: Buf, from: SocketAddress, choice: nat,
                 uses: seq<Use>, others: seq<Envelope>)
    returns (addr: HeapAddress)
    requires pool.Valid() && Held(pool, others, {})
    modifies pool.Repr
    ensures pool.Valid() && Readable(addr) && Read(addr) == FromSocketAddress(from)
  {
    hide DatagramPool.Valid; hide Placed;
    var value := pool.AcquireSocketAddress(payload, from, choice);
    LiveAddress(pool, value);
    addr := Clone(value.addr);
    LiveInRepr(pool, value);
    assert Memory(addr) !! pool.Repr;
    ReleaseValue(Copied(value));
    Churn(pool, uses, others, {});
  }

  /** Without the clone it does not: the next datagram from the pool overwrites it. */
  method Stale(pool: DatagramPool, payload: Buf, from: SocketAddress, next: SocketAddress)
    returns (addr: HeapAddress)
    requires pool.Valid() && from.family == next.family == IPv4
    modifies pool.Repr
    ensures pool.Valid() && Readable(addr) && Read(addr).ip == Some(next.ip[..4]) && Read(addr).port == from.port
  {
    hide DatagramPool.Valid;
    var value := pool.AcquireSocketAddress(payload, from, |pool.free|);
    LiveAddress(pool, value);
    addr := value.addr;
    LiveInRepr(pool, value);
    ReleaseValue(Copied(value));
    var reused := pool.AcquireSocketAddress(payload, next, |pool.free| - 1);
    assert reused == value;
    LiveAddress(pool, reused);
  }
}
