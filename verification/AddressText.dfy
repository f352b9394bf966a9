/**
 * Addresses as text (address.go): `parseAddress`, and both `String` methods. Splitting and joining host and port
 * follow the `net` package; how it prints and parses an IP is a parameter, assumed only to be faithful.
 */
module AddressText {
  import opened Wrappers
  import opened Addresses
  import Decimal

  // ---- strings ----

  /** `strings.IndexByte` */
  function Index(s: string, c: char): (i: int)
    ensures -1 <= i < |s|
    ensures i == -1 <==> c !in s
    ensures i >= 0 ==> s[i] == c && c !in s[..i]
  {
    if s == "" then -1
    else if s[0] == c then 0
    else
      var i := Index(s[1..], c);
      assert s == [s[0]] + s[1..];
      assert i >= 0 ==> s[..i + 1] == [s[0]] + s[1..][..i];
      if i < 0 then -1 else i + 1
  }

  /** `strings.LastIndexByte` */
  function LastIndex(s: string, c: char): (i: int)
    ensures -1 <= i < |s|
    ensures i == -1 <==> c !in s
    ensures i >= 0 ==> s[i] == c && c !in s[i + 1..]
  {
    if s == "" then -1
    else if s[|s| - 1] == c then |s| - 1
    else
      var i := LastIndex(s[..|s| - 1], c);
      assert s == s[..|s| - 1] + [s[|s| - 1]];
      assert i >= 0 ==> s[i + 1..] == s[..|s| - 1][i + 1..] + [s[|s| - 1]];
      i
  }

  /** Cutting at the only, last or first separator gives the parts back. */
  lemma CutLast(x: string, c: char, y: string)
    requires c !in y
    ensures var s := x + [c] + y; LastIndex(s, c) == |x| && s[..|x|] == x && s[|x| + 1..] == y
  {
    var s := x + [c] + y;
    assert s[|x|] == c && s[|x| + 1..] == y;
    AfterLast(s, |x|, c);
  }

  lemma CutFirst(x: string, c: char, y: string)
    requires c !in x
    ensures var s := x + [c] + y; Index(s, c) == |x| && s[..|x|] == x && s[|x| + 1..] == y
  {
    var s := x + [c] + y;
    assert s[|x|] == c && s[..|x|] == x;
    BeforeFirst(s, |x|, c);
  }

  lemma AfterLast(s: string, i: nat, c: char)
    requires i < |s| && s[i] == c && c !in s[i + 1..]
    ensures LastIndex(s, c) == i
  {
  }

  lemma BeforeFirst(s: string, i: nat, c: char)
    requires i < |s| && s[i] == c && c !in s[..i]
    ensures Index(s, c) == i
  {
  }

  // ---- host and port ----

  /** `net.SplitHostPort` */
  function SplitHostPort(s: string): Option<(string, string)> {
    var i := LastIndex(s, ':');
    if i < 0 then None
    else if s[0] == '[' then
      var end := Index(s, ']');
      if end < 0 || end + 1 != i || '[' in s[1..] || ']' in s[end + 1..] then None
      else Some((s[1..end], s[i + 1..]))
    else if ':' in s[..i] || '[' in s || ']' in s then None
    else Some((s[..i], s[i + 1..]))
  }

  /** `net.JoinHostPort` */
  function JoinHostPort(host: string, port: string): string {
    if ':' in host then "[" + host + "]:" + port else host + ":" + port
  }

  predicate Bracketless(s: string) { '[' !in s && ']' !in s }

  /** Joining is undone by splitting for hosts without brackets and ports without colons or brackets. */
  lemma JoinThenSplit(host: string, port: string)
    requires Bracketless(host) && Bracketless(port) && ':' !in port
    ensures SplitHostPort(JoinHostPort(host, port)) == Some((host, port))
  {
    if ':' in host { SplitBracketed(host, port); } else { SplitPlain(host, port); }
  }

  lemma SplitPlain(host: string, port: string)
    requires Bracketless(host) && Bracketless(port) && ':' !in port && ':' !in host
    ensures SplitHostPort(host + ":" + port) == Some((host, port))
  {
    CutLast(host, ':', port);
    var s := host + ":" + port;
    assert '[' !in s && ']' !in s;
  }

  lemma SplitBracketed(host: string, port: string)
    requires Bracketless(host) && Bracketless(port) && ':' !in port
    ensures SplitHostPort("[" + host + "]:" + port) == Some((host, port))
  {
    hide Index; hide LastIndex;
    var s := "[" + host + "]:" + port;
    CutLast("[" + host + "]", ':', port);
    assert s == "[" + host + "]" + ":" + port;
    CutFirst("[" + host, ']', ":" + port);
    assert s == "[" + host + "]" + (":" + port);
    var end := |host| + 1;
    assert s[end + 1..] == ":" + port;
    assert s[1..] == host + "]:" + port;
    assert s[1..end] == host by { assert s[..end] == "[" + host; }
  }

  /** What splitting yields has no brackets. */
  lemma SplitBracketless(s: string)
    requires SplitHostPort(s).Some?
    ensures Bracketless(SplitHostPort(s).value.0)
  {
    var i := LastIndex(s, ':');
    if s[0] == '[' {
      var end := Index(s, ']');
      var host := s[1..end];
      assert forall k :: 0 <= k < |host| ==> host[k] == s[1..][k] && host[k] == s[..end][k + 1];
    } else {
      assert forall k :: 0 <= k < i ==> s[..i][k] == s[k];
    }
  }

  // ---- parsing and printing addresses ----

  /** `net.ParseIP` and `net.IP.String`. */
  datatype IPText = IPText(parse: string -> Option<Bytes16>, show: seq<Byte> -> string)

  /**
   * What is assumed of them: parsing undoes printing, only IPv6 text has a colon, and neither text with a percent sign
   * nor what is printed for an IP of another length is an IP.
   */
  ghost predicate Faithful(t: IPText) {
    && (forall ip: seq<Byte> :: |ip| == 4 ==> t.parse(t.show(ip)) == Some(MappedPrefix() + ip) && ':' !in t.show(ip))
    && (forall ip: seq<Byte> :: |ip| == 16 && !IsMapped(ip) ==> t.parse(t.show(ip)) == Some(ip) && ':' in t.show(ip))
    && (forall ip: seq<Byte> :: |ip| != 4 && |ip| != 16 ==> t.parse(t.show(ip)).None?)
    && (forall ip: seq<Byte> :: Plain(t.show(ip)))
    && (forall s: string :: '%' in s ==> t.parse(s).None?)
    && t.show([0, 0, 0, 0]) == "0.0.0.0"
    && (forall ip: seq<Byte> :: IsMapped(ip) ==> t.show(ip) == t.show(ip[12..]))
  }

  predicate Plain(s: string) { s != "" && s != "localhost" && '%' !in s && Bracketless(s) }

  /** `parsedAddress` */
  datatype ParsedAddress = ParsedAddress(host: string, port: int, ip: seq<Byte>, zone: string, ipv6: bool)

  /** `net.IPv4zero`, in its 16-byte form. */
  function IPv4Zero(): seq<Byte> { MappedPrefix() + Zeros(4) }

  /** The host up to its last `%`, and the zone behind it. */
  function SplitZone(host: string): (string, string) {
    var i := LastIndex(host, '%');
    if i < 0 then (host, "") else (host[..i], host[i + 1..])
  }

  /** `parseAddress` */
  function ParseAddress(t: IPText, s: string): Result<ParsedAddress, Error> {
    match SplitHostPort(s)
    case None => Failure(ErrInvalidAddress)
    case Some((host0, portText)) =>
      match Decimal.Atoi(portText)
      case None => Failure(ErrInvalidAddress)
      case Some(port) =>
        if port < 0 || port > MAX_PORT then Failure(ErrInvalidAddress) else ParseHost(t, host0, port)
  }

  /** The rest of `parseAddress`, once the port is known. */
  function ParseHost(t: IPText, host0: string, port: int): Result<ParsedAddress, Error> {
    var host := if host0 == "localhost" then "127.0.0.1" else host0;
    if host == "" then Success(ParsedAddress("0.0.0.0", port, IPv4Zero(), "", false)) else
      var (name, zone) := SplitZone(host);
      match t.parse(name)
      case None => Failure(ErrInvalidAddress)
      case Some(ip) =>
        if IsMapped(ip) then Success(ParsedAddress(t.show(ip[12..]), port, ip[12..], "", false))
        else Success(ParsedAddress(t.show(ip), port, ip, zone, true))
  }

  /** `parsedAddress.String` */
  function ParsedText(p: ParsedAddress): string
    requires 0 <= p.port
  {
    JoinHostPort(if p.zone != "" then p.host + "%" + p.zone else p.host, Decimal.Print(p.port))
  }

  /** `Address.String` */
  function AddressString(t: IPText, a: Address): string
    requires 0 <= a.port
  {
    var host := if a.ip.Some? then t.show(a.ip.value) else "";
    JoinHostPort(if a.zone != "" && a.ip.Some? && To4(a.ip.value).None? then host + "%" + a.zone else host,
                 Decimal.Print(a.port))
  }

  /** What both `String` methods write is read back. */
  lemma ReadBack(t: IPText, ip: seq<Byte>, zone: string, port: int)
    requires Faithful(t) && 0 <= port <= MAX_PORT && Bracketless(zone) && '%' !in zone
    requires |ip| == 4 || (|ip| == 16 && !IsMapped(ip))
    ensures var host := t.show(ip);
            ParseAddress(t, JoinHostPort(if zone != "" && |ip| == 16 then host + "%" + zone else host, Decimal.Print(port)))
            == Success(ParsedAddress(t.show(ip), port, ip, if |ip| == 16 then zone else "", |ip| == 16))
  {
    hide SplitHostPort; hide JoinHostPort; hide ParseHost; hide SplitZone;
    hide Decimal.Atoi; hide Decimal.Print;
    var name := t.show(ip);
    assert Plain(name);
    var host := if zone != "" && |ip| == 16 then name + "%" + zone else name;
    ZoneSplits(name, zone);
    PortPlain(port);
    Decimal.PrintThenParse(port, MAX_PORT + 1);
    JoinThenSplit(host, Decimal.Print(port));
    HostBack(t, ip, zone, port);
  }

  lemma HostBack(t: IPText, ip: seq<Byte>, zone: string, port: int)
    requires Faithful(t) && Bracketless(zone) && '%' !in zone
    requires |ip| == 4 || (|ip| == 16 && !IsMapped(ip))
    ensures var name := t.show(ip);
            ParseHost(t, if zone != "" && |ip| == 16 then name + "%" + zone else name, port)
            == Success(ParsedAddress(name, port, ip, if |ip| == 16 then zone else "", |ip| == 16))
  {
    hide SplitZone;
    var name := t.show(ip);
    assert Plain(name);
    ZoneSplits(name, zone);
    var host := if zone != "" && |ip| == 16 then name + "%" + zone else name;
    assert host != "localhost" && host != "" by { if host != name { assert host[|name|] == '%'; } }
    if |ip| == 4 { MappedIs(ip); }
  }

  lemma MappedIs(ip: seq<Byte>)
    requires |ip| == 4
    ensures IsMapped(MappedPrefix() + ip) && (MappedPrefix() + ip)[12..] == ip
  {
    assert (MappedPrefix() + ip)[..12] == MappedPrefix();
  }

  lemma ZoneSplits(name: string, zone: string)
    requires Plain(name) && '%' !in zone && Bracketless(zone)
    ensures SplitZone(name) == (name, "") && SplitZone(name + "%" + zone) == (name, zone)
    ensures Bracketless(name + "%" + zone)
  {
    CutLast(name, '%', zone);
  }

  lemma PortPlain(port: nat)
    ensures Bracketless(Decimal.Print(port)) && ':' !in Decimal.Print(port)
  {
    var s := Decimal.Print(port);
    assert forall i :: 0 <= i < |s| ==> Decimal.IsDigit(s[i]);
  }

  /** What `parseAddress` yields. */
  lemma ParsedIs(t: IPText, s: string)
    requires ParseAddress(t, s).Success?
    ensures var p := ParseAddress(t, s).value;
            && 0 <= p.port <= MAX_PORT && Bracketless(p.zone) && '%' !in p.zone
            && (p.host == t.show(p.ip) || (p.host == "0.0.0.0" && p.ip == IPv4Zero()))
            && (p.ipv6 ==> |p.ip| == 16 && !IsMapped(p.ip) && p.host == t.show(p.ip))
            && (!p.ipv6 ==> p.zone == "" && (|p.ip| == 4 || p.ip == IPv4Zero()))
  {
    hide SplitHostPort; hide ParseHost; hide Decimal.Atoi;
    SplitBracketless(s);
    var (host0, portText) := SplitHostPort(s).value;
    HostIs(t, host0, Decimal.Atoi(portText).value);
  }

  lemma HostIs(t: IPText, host0: string, port: int)
    requires Bracketless(host0) && ParseHost(t, host0, port).Success?
    ensures var p := ParseHost(t, host0, port).value;
            && p.port == port && Bracketless(p.zone) && '%' !in p.zone
            && (p.host == t.show(p.ip) || (p.host == "0.0.0.0" && p.ip == IPv4Zero()))
            && (p.ipv6 ==> |p.ip| == 16 && !IsMapped(p.ip) && p.host == t.show(p.ip))
            && (!p.ipv6 ==> p.zone == "" && (|p.ip| == 4 || p.ip == IPv4Zero()))
  {
    hide SplitZone; hide IsMapped;
    var host := if host0 == "localhost" then "127.0.0.1" else host0;
    ZoneIs(host);
  }

  lemma ZoneIs(host: string)
    requires Bracketless(host)
    ensures Bracketless(SplitZone(host).1) && '%' !in SplitZone(host).1
  {
    var zone := SplitZone(host).1;
    var i := LastIndex(host, '%');
    if i >= 0 { assert forall k :: 0 <= k < |zone| ==> zone[k] == host[i + 1 + k]; }
  }

  /**
   * Printing a parsed address and parsing the text again gives the same address up to the form of its IP, and gives
   * exactly the same one unless the text had no host; a second time nothing changes any more.
   */
  lemma ParsedRoundTrip(t: IPText, s: string)
    requires Faithful(t) && ParseAddress(t, s).Success?
    ensures var p := ParseAddress(t, s).value;
            var r := ParseAddress(t, ParsedText(p));
            && r.Success? && r.value == p.(ip := r.value.ip) && SameIP(r.value.ip, p.ip)
            && (r.value == p <==> p.ip != IPv4Zero())
            && ParseAddress(t, ParsedText(r.value)) == r
  {
    hide ParseAddress; hide SplitHostPort; hide JoinHostPort;
    ParsedIs(t, s);
    var p := ParseAddress(t, s).value;
    var ip := if p.ip == IPv4Zero() then [0, 0, 0, 0] else p.ip;
    assert IPv4Zero() == MappedPrefix() + [0, 0, 0, 0];
    assert |p.ip| == 16 && p.ipv6 ==> p.ip != IPv4Zero() by { MappedIs([0, 0, 0, 0]); }
    assert t.show(ip) == p.host by { MappedIs([0, 0, 0, 0]); }
    ReadBack(t, ip, p.zone, p.port);
  }

  /** A host with brackets is not recovered. */
  lemma BracketsFail(host: string, port: string)
    requires !Bracketless(host) && host[0] != '[' && ':' !in port
    ensures SplitHostPort(JoinHostPort(host, port)) == None
  {
    hide Index; hide LastIndex;
    var s := JoinHostPort(host, port);
    if ':' in host {
      CutLast("[" + host + "]", ':', port);
      assert s == "[" + host + "]" + ":" + port;
      assert forall k :: 0 <= k < |host| ==> s[k + 1] == host[k] && s[1..][k] == host[k];
      if ']' in host {
        var k :| 0 <= k < |host| && host[k] == ']';
        assert Index(s, ']') <= k + 1;
      }
    } else {
      assert s[0] == host[0] && forall k :: 0 <= k < |host| ==> s[k] == host[k];
    }
  }

  /** Text whose IP part cannot be parsed. */
  lemma HostFails(t: IPText, host: string, port: int)
    requires 0 <= port <= MAX_PORT && host != "" && host != "localhost" && host[0] != '['
    requires !Bracketless(host) || t.parse(SplitZone(host).0).None?
    ensures ParseAddress(t, JoinHostPort(host, Decimal.Print(port))).Failure?
  {
    hide SplitHostPort; hide JoinHostPort; hide SplitZone; hide Decimal.Atoi; hide Decimal.Print;
    PortPlain(port);
    if Bracketless(host) {
      Decimal.PrintThenParse(port, MAX_PORT + 1);
      JoinThenSplit(host, Decimal.Print(port));
    } else {
      BracketsFail(host, Decimal.Print(port));
    }
  }

  lemma LastIndexFrom(s: string, c: char, j: nat)
    requires j < |s| && s[j] == c
    ensures LastIndex(s, c) >= j
  {
  }

  /** With a percent sign in the zone the IP part keeps one. */
  lemma PercentStays(name: string, zone: string)
    requires '%' in zone
    ensures '%' in SplitZone(name + "%" + zone).0
  {
    var host := name + "%" + zone;
    var i := LastIndex(host, '%');
    var k :| 0 <= k < |zone| && zone[k] == '%';
    assert host[|name| + 1 + k] == '%' && host[|name|] == '%';
    LastIndexFrom(host, '%', |name| + 1 + k);
    assert host[..i][|name|] == '%';
  }

  /** A zone that can be told from what is around it. */
  predicate PlainZone(zone: string) { Bracketless(zone) && '%' !in zone }

  /** An address whose text can be read. */
  predicate Printable(a: Address) {
    a.ip.None? || To4(a.ip.value).Some? || (|a.ip.value| == 16 && PlainZone(a.zone))
  }

  lemma UnprintableFails(t: IPText, a: Address)
    requires Faithful(t) && 0 <= a.port <= MAX_PORT && !Printable(a)
    ensures ParseAddress(t, AddressString(t, a)).Failure?
  {
    hide ParseAddress; hide JoinHostPort; hide SplitZone;
    var name := t.show(a.ip.value);
    assert Plain(name);
    var host := if a.zone != "" then name + "%" + a.zone else name;
    assert host[0] == name[0];
    assert host != "localhost" by { if host != name { assert host[|name|] == '%'; } }
    if PlainZone(a.zone) { ZoneSplits(name, a.zone); }
    else if '%' in a.zone { PercentStays(name, a.zone); }
    else { assert forall k :: 0 <= k < |a.zone| ==> host[|name| + 1 + k] == a.zone[k]; }
    HostFails(t, host, a.port);
  }

  /** No host is read as the IPv4 zero. */
  lemma NoHost(t: IPText, port: int)
    requires 0 <= port <= MAX_PORT
    ensures ParseAddress(t, JoinHostPort("", Decimal.Print(port))) == Success(ParsedAddress("0.0.0.0", port, IPv4Zero(), "", false))
  {
    hide SplitHostPort; hide JoinHostPort; hide SplitZone; hide Decimal.Atoi; hide Decimal.Print;
    PortPlain(port);
    Decimal.PrintThenParse(port, MAX_PORT + 1);
    JoinThenSplit("", Decimal.Print(port));
  }

  /**
   * The text of an address can be read exactly if it has no IP, an IPv4 one, or one of 16 bytes and a zone without
   * brackets and percent signs. What is read is the address: of an IPv4 address without its zone, and of one without
   * an IP the IPv4 zero.
   */
  lemma AddressTextRoundTrip(t: IPText, a: Address)
    requires Faithful(t) && 0 <= a.port <= MAX_PORT
    ensures var r := ParseAddress(t, AddressString(t, a));
            && (r.Success? <==> Printable(a))
            && (r.Success? ==>
                  && r.value.port == a.port
                  && SameIP(r.value.ip, if a.ip.Some? then a.ip.value else IPv4Zero())
                  && r.value.ipv6 == (a.ip.Some? && To4(a.ip.value).None?)
                  && r.value.zone == (if r.value.ipv6 then a.zone else ""))
  {
    hide ParseAddress; hide JoinHostPort;
    if !Printable(a) { UnprintableFails(t, a); }
    else if a.ip.None? { NoHost(t, a.port); }
    else if IsMapped(a.ip.value) {
      var ip := a.ip.value;
      assert ip == ip[..12] + ip[12..];
      ReadBack(t, ip[12..], "", a.port);
    } else if |a.ip.value| == 4 { ReadBack(t, a.ip.value, "", a.port); }
    else { ReadBack(t, a.ip.value, a.zone, a.port); }
  }

  /** Text, address and socket address: a datagram's source survives being printed and parsed. */
  lemma SourceText(t: IPText, ifaces: map<string, nat>, sa: SocketAddress)
    requires Faithful(t) && Canonical(sa) && 0 <= sa.port <= MAX_PORT && sa.zoneId < UINT32_BOUND
    ensures var r := ParseAddress(t, AddressString(t, FromSocketAddress(sa)));
            r.Success? && ToSocketAddress(ifaces, Address(Some(r.value.ip), r.value.port, r.value.zone)) == Success(sa)
  {
    hide ParseAddress; hide AddressString; hide ToSocketAddress; hide Faithful;
    var a := FromSocketAddress(sa);
    assert Bracketless(a.zone) && '%' !in a.zone by { if sa.zoneId != 0 { ZonePlain(sa.zoneId); } }
    AddressTextRoundTrip(t, a);
    SocketAddressRoundTrip(ifaces, sa);
    var r := ParseAddress(t, AddressString(t, a)).value;
    SameSocket(ifaces, a, Address(Some(r.ip), r.port, r.zone));
  }

  lemma ZonePlain(n: nat)
    ensures Bracketless(Decimal.Print(n)) && '%' !in Decimal.Print(n)
  {
    var s := Decimal.Print(n);
    assert forall i :: 0 <= i < |s| ==> Decimal.IsDigit(s[i]);
  }

  /** Equal IPs, ports and zones make equal socket addresses. */
  lemma SameSocket(ifaces: map<string, nat>, a: Address, b: Address)
    requires a.Valid() && b.Valid() && a.port == b.port && SameIP(a.ip.value, b.ip.value)
    requires |a.ip.value| == 4 || |a.ip.value| == 16
    requires To4(a.ip.value).None? ==> a.zone == b.zone
    ensures ToSocketAddress(ifaces, a) == ToSocketAddress(ifaces, b)
  {
    var x, y := a.ip.value, b.ip.value;
    if |x| == 4 { MappedIs(x); }
    if |y| == 4 { MappedIs(y); }
    assert |x| == 16 ==> x == x[..12] + x[12..];
    assert |y| == 16 ==> y == y[..12] + y[12..];
  }

  // ---- the assumption can be met ----

  function Encode(ip: seq<Byte>): string { seq(|ip|, i requires 0 <= i < |ip| => (256 + (ip[i] as int)) as char) }

  function Decode(s: string): seq<Byte> { seq(|s|, i requires 0 <= i < |s| => (s[i] as int) % 256) }

  function Show(ip: seq<Byte>): string {
    if |ip| != 4 && |ip| != 16 then "?" + Encode(ip) else
    var v4 := if IsMapped(ip) then ip[12..] else ip;
    if v4 == [0, 0, 0, 0] then "0.0.0.0" else if |v4| == 4 then "." + Encode(v4) else ":" + Encode(ip)
  }

  function Parse(s: string): Option<Bytes16> {
    if '%' in s then None
    else if s == "0.0.0.0" then Some(IPv4Zero())
    else if |s| == 5 && s[0] == '.' then Some(MappedPrefix() + Decode(s[1..]))
    else if |s| == 17 && s[0] == ':' then Some(Decode(s[1..]))
    else None
  }

  lemma DecodeEncode(ip: seq<Byte>)
    ensures |Encode(ip)| == |ip| && Decode(Encode(ip)) == ip && ':' !in Encode(ip) && '%' !in Encode(ip) && Bracketless(Encode(ip))
  {
  }

  lemma FaithfulPossible()
    ensures Faithful(IPText(Parse, Show))
  {
    hide Show; hide Parse; hide Plain;
    forall ip: seq<Byte>
      ensures Plain(Show(ip)) && (|ip| != 4 && |ip| != 16 ==> Parse(Show(ip)).None?)
      ensures |ip| == 4 ==> Parse(Show(ip)) == Some(MappedPrefix() + ip) && ':' !in Show(ip)
      ensures |ip| == 16 && !IsMapped(ip) ==> Parse(Show(ip)) == Some(ip) && ':' in Show(ip)
      ensures IsMapped(ip) ==> Show(ip) == Show(ip[12..])
    {
      ShowIs(ip);
      MappedShown(ip);
    }
    forall s: string | '%' in s ensures Parse(s).None? { PercentRefused(s); }
    ZeroShown();
  }

  lemma MappedShown(ip: seq<Byte>)
    ensures IsMapped(ip) ==> Show(ip) == Show(ip[12..])
  {
  }

  lemma PercentRefused(s: string)
    requires '%' in s
    ensures Parse(s).None?
  {
  }

  lemma ZeroShown()
    ensures Show([0, 0, 0, 0]) == "0.0.0.0"
  {
  }

  lemma ShowIs(ip: seq<Byte>)
    ensures Plain(Show(ip)) && (|ip| != 4 && |ip| != 16 ==> Parse(Show(ip)).None?)
    ensures |ip| == 4 ==> Parse(Show(ip)) == Some(MappedPrefix() + ip) && ':' !in Show(ip)
    ensures |ip| == 16 && !IsMapped(ip) ==> Parse(Show(ip)) == Some(ip) && ':' in Show(ip)
  {
    hide Decode; hide Encode;
    var v4 := if IsMapped(ip) then ip[12..] else ip;
    DecodeEncode(v4);
    DecodeEncode(ip);
    assert ("." + Encode(v4))[1..] == Encode(v4) && (":" + Encode(v4))[1..] == Encode(v4);
    assert ("?" + Encode(ip))[0] == '?';
    assert IPv4Zero() == MappedPrefix() + [0, 0, 0, 0];
  }
}
