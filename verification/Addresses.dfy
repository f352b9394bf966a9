/** The address forms of address.go and io_linux.go, and the conversions between them. */
module Addresses {
  import opened Wrappers
  import Decimal

  type Byte = x: int | 0 <= x < 256

  const MAX_PORT := 65535
  const UINT32_BOUND := 0x1_0000_0000

  /** `Address`: a nil IP is `None`; an IP may have any length, as a Go slice may. */
  datatype Address = Address(ip: Option<seq<Byte>>, port: int, zone: string)
  {
    predicate Valid() { ip.Some? && 0 <= port <= MAX_PORT }
  }

  const NO_ADDRESS := Address(None, 0, "")

  datatype Family = Unspecified | IPv4 | IPv6

  type Bytes16 = s: seq<Byte> | |s| == 16 witness seq(16, _ => 0)

  /** `transport.SocketAddress`: the fixed 16-byte form the poller uses. */
  datatype SocketAddress = SocketAddress(family: Family, ip: Bytes16, port: int, zoneId: nat)
  {
    predicate Valid() { family != Unspecified }
  }

  /** The kernel's form: the port field holds the 16-bit value the program stored there. */
  datatype RawSockaddr =
    | RawInet4(port4: int, addr4: seq<Byte>)
    | RawInet6(port6: int, addr6: Bytes16, scopeId: nat)
    | RawOther(rawFamily: int)

  const SIZEOF_INET4 := 16
  const SIZEOF_INET6 := 28

  function Zeros(n: nat): seq<Byte> { seq(n, _ => 0) }

  /** `net.v4InV6Prefix`, section 2.5.5.2 of RFC 4291. */
  function MappedPrefix(): seq<Byte> { Zeros(10) + [255, 255] }

  predicate IsMapped(ip: seq<Byte>) { |ip| == 16 && ip[..12] == MappedPrefix() }

  /** `net.IP.To4` */
  function To4(ip: seq<Byte>): Option<seq<Byte>> {
    if |ip| == 4 then Some(ip)
    else if IsMapped(ip) then Some(ip[12..])
    else None
  }

  /** `net.IP.To16` */
  function To16(ip: seq<Byte>): Option<Bytes16> {
    if |ip| == 4 then Some(MappedPrefix() + ip)
    else if |ip| == 16 then Some(ip)
    else None
  }

  /** `net.IP.Equal`: an IPv4 address and its mapped form are equal. */
  predicate SameIP(x: seq<Byte>, y: seq<Byte>) {
    if To16(x).Some? && To16(y).Some? then To16(x) == To16(y) else x == y
  }

  /** `zoneID`; `ifaces` stands for the index lookup by interface name. */
  function ZoneId(ifaces: map<string, nat>, zone: string): nat {
    if zone == "" then 0 else
      match Decimal.ParseUint(zone, UINT32_BOUND)
      case Some(n) => n
      case None => if zone in ifaces then ifaces[zone] % UINT32_BOUND else 0
  }

  /** `addressToSocketAddress` */
  function ToSocketAddress(ifaces: map<string, nat>, addr: Address): Result<SocketAddress, Error> {
    if addr.ip.None? || addr.port < 0 || addr.port > MAX_PORT then Failure(ErrInvalidAddress) else
      match To4(addr.ip.value)
      case Some(ip4) => Success(SocketAddress(IPv4, ip4 + Zeros(12), addr.port, 0))
      case None =>
        match To16(addr.ip.value)
        case None => Failure(ErrInvalidAddress)
        case Some(ip16) => Success(SocketAddress(IPv6, ip16, addr.port, ZoneId(ifaces, addr.zone)))
  }

  /** `socketAddressToAddress` */
  function FromSocketAddress(sa: SocketAddress): Address {
    match sa.family
    case IPv4 => Address(Some(sa.ip[..4]), sa.port, "")
    case IPv6 => Address(Some(sa.ip), sa.port, if sa.zoneId != 0 then Decimal.Print(sa.zoneId) else "")
    case Unspecified => NO_ADDRESS
  }

  /** `hostToNetwork16`: `value<<8 | value>>8` on 16 bits. */
  function SwapBytes(value: int): (r: int)
    requires 0 <= value <= MAX_PORT
    ensures 0 <= r <= MAX_PORT
  {
    (value * 256) % 65536 + value / 256
  }

  /** `rawSockaddrFromAddress`, with the length it reports. */
  function ToRawSockaddr(ifaces: map<string, nat>, addr: Address): Result<(RawSockaddr, nat), Error> {
    if addr.ip.None? || addr.port < 0 || addr.port > MAX_PORT then Failure(ErrInvalidAddress) else
      match To4(addr.ip.value)
      case Some(ip4) => Success((RawInet4(SwapBytes(addr.port), ip4), SIZEOF_INET4))
      case None =>
        match To16(addr.ip.value)
        case None => Failure(ErrInvalidAddress)
        case Some(ip16) =>
          Success((RawInet6(SwapBytes(addr.port), ip16, ZoneId(ifaces, addr.zone)), SIZEOF_INET6))
  }

  predicate WellFormedRaw(raw: RawSockaddr) {
    match raw
    case RawInet4(p, a) => 0 <= p <= MAX_PORT && |a| == 4
    case RawInet6(p, _, _) => 0 <= p <= MAX_PORT
    case RawOther(_) => true
  }

  /** A sockaddr as the kernel fills it in. */
  type KernelSockaddr = r: RawSockaddr | WellFormedRaw(r) witness RawOther(0)

  /** `socketAddressFromRawSockaddr` */
  function FromRawSockaddr(raw: KernelSockaddr, length: nat): Result<SocketAddress, Error> {
    match raw
    case RawInet4(p, a) =>
      if length < SIZEOF_INET4 then Failure(ErrInvalidAddress)
      else Success(SocketAddress(IPv4, a + Zeros(12), SwapBytes(p), 0))
    case RawInet6(p, a, scope) =>
      if length < SIZEOF_INET6 then Failure(ErrInvalidAddress)
      else Success(SocketAddress(IPv6, a, SwapBytes(p), scope))
    case RawOther(_) => Failure(ErrInvalidAddress)
  }

  // ---- agreement and inversion ----

  /** Swapping exchanges the two bytes. */
  lemma SwapBytesIs(hi: int, lo: int)
    requires 0 <= hi < 256 && 0 <= lo < 256
    ensures SwapBytes(hi * 256 + lo) == lo * 256 + hi
  {
    var value := hi * 256 + lo;
    assert value / 256 == hi;
    assert value * 256 == hi * 65536 + lo * 256;
    assert (hi * 65536 + lo * 256) % 65536 == lo * 256;
  }

  lemma SwapBytesInvolution(value: int)
    requires 0 <= value <= MAX_PORT
    ensures SwapBytes(SwapBytes(value)) == value
  {
    hide SwapBytes;
    var hi, lo := value / 256, value % 256;
    assert value == hi * 256 + lo;
    SwapBytesIs(hi, lo);
    SwapBytesIs(lo, hi);
  }

  /** How a 16-bit field lies in memory on a host of the given byte order. */
  function InMemory(value: int, bigEndian: bool): seq<int>
    requires 0 <= value <= MAX_PORT
  {
    if bigEndian then [value / 256, value % 256] else [value % 256, value / 256]
  }

  /** The stored port is in network order exactly on little-endian hosts (or when both bytes agree). */
  lemma PortOnTheWire(port: int, bigEndian: bool)
    requires 0 <= port <= MAX_PORT
    ensures InMemory(SwapBytes(port), bigEndian) == [port / 256, port % 256]
            <==> !bigEndian || port / 256 == port % 256
  {
    hide SwapBytes;
    var hi, lo := port / 256, port % 256;
    assert port == hi * 256 + lo;
    SwapBytesIs(hi, lo);
    assert (lo * 256 + hi) / 256 == lo && (lo * 256 + hi) % 256 == hi;
    assert InMemory(SwapBytes(port), bigEndian)[0] == if bigEndian then lo else hi;
    assert InMemory(SwapBytes(port), bigEndian)[1] == if bigEndian then hi else lo;
  }

  /** The two encoders reject the same addresses, and decoding the raw form gives the other's result. */
  lemma EncodingsAgree(ifaces: map<string, nat>, addr: Address)
    ensures match ToRawSockaddr(ifaces, addr)
            case Failure(e) => ToSocketAddress(ifaces, addr) == Failure(e)
            case Success((raw, length)) =>
              WellFormedRaw(raw) && ToSocketAddress(ifaces, addr) == FromRawSockaddr(raw, length)
  {
    if 0 <= addr.port <= MAX_PORT {
      SwapBytesInvolution(addr.port);
    }
  }

  /**
   * What the kernel reports is decoded exactly, of every sender it can name: a long enough IPv4 or IPv6 address gives
   * its family, its IP, the port whose stored form this is and, for IPv6, the scope; anything else is an error.
   */
  lemma DecodingExact(raw: KernelSockaddr, length: nat)
    ensures match FromRawSockaddr(raw, length)
            case Failure(e) =>
              e == ErrInvalidAddress && (raw.RawOther? || (raw.RawInet4? && length < 16) || (raw.RawInet6? && length < 28))
            case Success(sa) =>
              && 0 <= sa.port <= MAX_PORT
              && (sa.family == IPv4 ==>
                    && raw.RawInet4? && length >= 16 && SwapBytes(sa.port) == raw.port4
                    && sa.ip == raw.addr4 + Zeros(12) && sa.zoneId == 0)
              && (sa.family == IPv6 ==>
                    && raw.RawInet6? && length >= 28 && SwapBytes(sa.port) == raw.port6
                    && sa.ip == raw.addr6 && sa.zoneId == raw.scopeId)
              && sa.family != Unspecified
  {
    hide SwapBytes;
    match raw
    case RawInet4(p, _) => SwapBytesInvolution(p);
    case RawInet6(p, _, _) => SwapBytesInvolution(p);
    case RawOther(_) =>
  }

  /** The socket addresses that have exactly one spelling. */
  predicate Canonical(sa: SocketAddress) {
    match sa.family
    case IPv4 => sa.ip[4..] == Zeros(12) && sa.zoneId == 0
    case IPv6 => !IsMapped(sa.ip)
    case Unspecified => false
  }

  /**
   * Decoding a socket address and encoding it again is the identity exactly on canonical addresses;
   * every other IP address goes to its IPv4 form, zero-padded and without a zone.
   */
  lemma SocketAddressRoundTrip(ifaces: map<string, nat>, sa: SocketAddress)
    requires 0 <= sa.port <= MAX_PORT && sa.zoneId < UINT32_BOUND
    ensures ToSocketAddress(ifaces, FromSocketAddress(sa)) == Success(sa) <==> Canonical(sa)
    ensures sa.family == Unspecified ==> ToSocketAddress(ifaces, FromSocketAddress(sa)).Failure?
    ensures sa.family != Unspecified && !Canonical(sa) ==>
              ToSocketAddress(ifaces, FromSocketAddress(sa)) ==
              Success(SocketAddress(IPv4, (if sa.family == IPv4 then sa.ip[..4] else sa.ip[12..]) + Zeros(12), sa.port, 0))
  {
    match sa.family
    case IPv4 =>
      assert sa.ip == sa.ip[..4] + sa.ip[4..];
      assert (sa.ip[..4] + Zeros(12))[4..] == Zeros(12);
    case IPv6 =>
      Decimal.PrintThenParse(sa.zoneId, UINT32_BOUND);
    case Unspecified =>
  }

  /** A zone is a number, or the name of an interface, or nothing the encoders know. */
  lemma ZoneExact(ifaces: map<string, nat>, zone: string, n: nat)
    requires n < UINT32_BOUND
    ensures ZoneId(ifaces, "") == 0 && ZoneId(ifaces, Decimal.Print(n)) == n
    ensures zone != "" && Decimal.ParseUint(zone, UINT32_BOUND) == None ==>
              ZoneId(ifaces, zone) == if zone in ifaces then ifaces[zone] % UINT32_BOUND else 0
    ensures ZoneId(ifaces, zone) < UINT32_BOUND
  {
    Decimal.PrintThenParse(n, UINT32_BOUND);
  }

  /** Encoding an address and decoding it keeps the port and the IP, and loses nothing but the zone's spelling. */
  lemma AddressRoundTrip(ifaces: map<string, nat>, addr: Address)
    requires ToSocketAddress(ifaces, addr).Success?
    ensures var back := FromSocketAddress(ToSocketAddress(ifaces, addr).value);
            && back.Valid() && back.port == addr.port && SameIP(back.ip.value, addr.ip.value)
            && ToSocketAddress(ifaces, back) == ToSocketAddress(ifaces, addr)
  {
    var sa := ToSocketAddress(ifaces, addr).value;
    if sa.family == IPv4 {
      assert sa.ip[..4] == To4(addr.ip.value).value;
      assert sa.ip[4..] == Zeros(12);
      if |addr.ip.value| == 16 {
        assert addr.ip.value == addr.ip.value[..12] + addr.ip.value[12..];
      }
    }
    SocketAddressRoundTrip(ifaces, sa);
  }
}
