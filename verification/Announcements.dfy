/** What the handlers are told of received datagrams: which, in which order, and who sent them. */
module Announcements {
  import opened Wrappers
  import opened Addresses
  import Decimal
  import opened World
  import opened EndpointState
  import opened EndpointSpec
  import opened Frames
  import opened Preservation
  import opened Runs

  /** The address a handler is given names the sender: its IP, its port and, for IPv6, its zone as a number. */
  predicate Names(a: Address, from: SocketAddress) {
    match from.family
    case IPv4 => a == Address(Some(from.ip[..4]), from.port, "")
    case IPv6 =>
      && a.ip == Some(from.ip) && a.port == from.port
      && (if from.zoneId == 0 then a.zone == ""
          else from.zoneId < UINT32_BOUND ==> Decimal.ParseUint(a.zone, UINT32_BOUND) == Some(from.zoneId))
    case Unspecified => a.ip == None
  }

  /**
   * So a reply to it goes back to the sender, if that is canonical, and of other senders to the IPv4 form of the IP:
   * its first four bytes, or the last four of a mapped one.
   */
  lemma NamedLeadsBack(ifaces: map<string, nat>, a: Address, from: SocketAddress)
    requires Names(a, from) && from.family != Unspecified && 0 <= from.port <= MAX_PORT && from.zoneId < UINT32_BOUND
    ensures ToSocketAddress(ifaces, a) == Success(from) <==> Canonical(from)
    ensures !Canonical(from) ==>
              ToSocketAddress(ifaces, a) ==
              Success(SocketAddress(IPv4, (if from.family == IPv4 then from.ip[..4] else from.ip[12..]) + Zeros(12), from.port, 0))
  {
    if from.family == IPv4 {
      assert from.ip == from.ip[..4] + from.ip[4..];
      assert (from.ip[..4] + Zeros(12))[4..] == Zeros(12);
    }
  }

  lemma DecodedNames(from: SocketAddress)
    ensures Names(FromSocketAddress(from), from)
  {
    if from.family == IPv6 && from.zoneId != 0 && from.zoneId < UINT32_BOUND {
      Decimal.PrintThenParse(from.zoneId, UINT32_BOUND);
    }
  }

  /** The announcements among what the pipeline has been told, in order. */
  function Reads(events: seq<Event>): seq<Event>
    decreases |events|
  {
    if events == [] then [] else
      var last := events[|events| - 1];
      Reads(events[..|events| - 1]) + (if last.ChannelRead? then [last] else [])
  }

  lemma ReadsAppend(events: seq<Event>, x: Event)
    ensures Reads(events + [x]) == Reads(events) + (if x.ChannelRead? then [x] else [])
  {
    assert (events + [x])[..|events|] == events;
  }

  /** An announcement of this datagram: its buffer with its bytes, its sender, and an envelope if they are pooled. */
  predicate Tells(c: Config, e: Event, m: Inbound) {
    e.ChannelRead? && e.payload == m.payload && Names(e.from, m.from) && (e.envelope.Some? <==> c.pooled)
  }

  ghost predicate Matching(c: Config, events: seq<Event>, ms: seq<Inbound>) {
    |events| == |ms| && forall i :: 0 <= i < |ms| ==> Tells(c, events[i], ms[i])
  }

  ghost predicate Announces(c: Config, s: State) { Matching(c, Reads(s.log.events), s.log.dispatched) }

  lemma SameAnnounces(c: Config, s: State, r: State)
    requires Announces(c, s) && r.log.events == s.log.events && r.log.dispatched == s.log.dispatched
    ensures Announces(c, r)
  {
  }

  lemma OtherAnnounces(c: Config, s: State, r: State, x: Event)
    requires Announces(c, s) && r.log.events == s.log.events + [x] && r.log.dispatched == s.log.dispatched && !x.ChannelRead?
    ensures Announces(c, r)
  {
    hide Matching;
    ReadsAppend(s.log.events, x);
    assert Reads(s.log.events) + [] == Reads(s.log.events);
  }

  lemma SettledAnnounces(c: Config, s: State)
    requires Announces(c, s)
    ensures Announces(c, Settled(c, s))
  {
    hide Announces;
    var r := Settled(c, s);
    if r.log.events == s.log.events { SameAnnounces(c, s, r); } else {
      OtherAnnounces(c, s, r, WritabilityChanged(r.writable));
    }
  }

  lemma MoreMatching(c: Config, events: seq<Event>, ms: seq<Inbound>, e: Event, m: Inbound)
    requires Matching(c, events, ms) && Tells(c, e, m)
    ensures Matching(c, events + [e], ms + [m])
  {
    hide Tells;
  }

  lemma MarkedAnnounces(c: Config, s: State, m: Mark)
    requires Announces(c, s) && Markable(c, m, s)
    ensures Announces(c, Marked(c, m, s))
  {
    hide Announces; hide FromSocketAddress;
    var r := Marked(c, m, s);
    match m
    case Tell(x) => OtherAnnounces(c, s, r, x);
    case MarkInactive => if c.hasChannel { OtherAnnounces(c, s, r, Inactive); } else { SameAnnounces(c, s, r); }
    case Announcing(d, envelope) => AnnouncedMatches(c, s, d, envelope);
    case _ => SameAnnounces(c, s, r);
  }

  lemma AnnouncedMatches(c: Config, s: State, m: Inbound, envelope: Option<nat>)
    requires Announces(c, s) && (envelope.Some? <==> c.pooled)
    ensures Announces(c, Announced(s, m, envelope))
  {
    hide Matching; hide FromSocketAddress; hide Names;
    var e := ChannelRead(m.payload, FromSocketAddress(m.from), envelope);
    DecodedNames(m.from);
    ReadsAppend(s.log.events, e);
    MoreMatching(c, Reads(s.log.events), s.log.dispatched, e, m);
  }

  lemma AnnouncesStep(c: Config, a: Atom, s: State)
    requires Enabled(c, a, s) && Announces(c, s)
    ensures Announces(c, Apply(c, a, s))
  {
    hide Settled; hide Move; hide Movable; hide Markable; hide Marked; hide Announces; hide Owned; hide ReleaseAll;
    hide Batched; hide FirstSend;
    match a
    case Append(d) => SameAnnounces(c, s, Appended(s, d)); SettledAnnounces(c, Appended(s, d));
    case Pop => SameAnnounces(c, s, Popped(s)); SettledAnnounces(c, Popped(s));
    case CompleteWrite => SameAnnounces(c, s, WriteCompleted(s)); SettledAnnounces(c, WriteCompleted(s));
    case BeginClose => SameAnnounces(c, s, s.(closed := true)); SettledAnnounces(c, s.(closed := true));
    case Note(m) => MarkedAnnounces(c, s, m);
    case Batch(r) => BatchedLog(s, r); SameAnnounces(c, s, Batched(s, r));
    case _ => SameAnnounces(c, s, Apply(c, a, s));
  }

  lemma BatchedLog(s: State, r: SendResult)
    requires r.taken <= |s.queue|
    ensures Batched(s, r).log.events == s.log.events && Batched(s, r).log.dispatched == s.log.dispatched
  {
  }

  lemma AnnouncesInvariant(c: Config)
    ensures Invariant(c, s => Core(c, s) && Announces(c, s))
  {
    hide Core; hide Announces; hide Apply; hide Enabled;
    forall a: Atom, s: State | Enabled(c, a, s) && Core(c, s) && Announces(c, s)
      ensures Core(c, Apply(c, a, s)) && Announces(c, Apply(c, a, s))
    {
      CoreStep(c, a, s);
      AnnouncesStep(c, a, s);
    }
  }

  /**
   * After every run the handlers have been told of exactly the datagrams handed on, once each and in order, each with
   * its buffer, its bytes and its sender, and in an envelope exactly if the endpoint pools them.
   */
  lemma AnnouncedOnce(c: Config, steps: seq<Step>)
    ensures var l := Run(c, Initial(), steps).log;
            && |Reads(l.events)| == |l.dispatched|
            && forall i :: 0 <= i < |l.dispatched| ==> Tells(c, Reads(l.events)[i], l.dispatched[i])
  {
    hide Run; hide Invariant; hide Tells;
    AnnouncesInvariant(c);
    assert Core(c, Initial());
    assert Announces(c, Initial()) by { NothingAnnounced(c); }
    RunPreserves(c, s => Core(c, s) && Announces(c, s), Initial(), steps);
  }

  lemma NothingAnnounced(c: Config)
    ensures Announces(c, Initial())
  {
  }

  /** What is told when a datagram arrives. */
  lemma ArrivedTells(c: Config, s: State, m: Inbound) returns (e: Event)
    ensures var t := Arrived(c, s, m);
            && t.log.events == s.log.events + [e] && Tells(c, e, m) && t.log.dispatched == s.log.dispatched + [m]
            && t.log.accepted == s.log.accepted && t.log.queuedAfter == s.log.queuedAfter && t.closed == s.closed
            && BufRef(m.payload.id) in t.w.held && (e.envelope.Some? ==> EnvelopeRef(e.envelope.value) in t.w.held)
            && e.envelope == (if c.pooled then Some(AcquireEnvelope(HandOver(s.w, BufRef(m.payload.id))).1) else None)
  {
    hide FromSocketAddress; hide Names; hide HandOver; hide AcquireEnvelope;
    DecodedNames(m.from);
    HandOverFields(s.w, BufRef(m.payload.id));
    EnvelopeFields(HandOver(s.w, BufRef(m.payload.id)));
    var envelope := if c.pooled then Some(AcquireEnvelope(HandOver(s.w, BufRef(m.payload.id))).1) else None;
    e := ChannelRead(m.payload, FromSocketAddress(m.from), envelope);
  }

  lemma ArrivedCore(c: Config, s: State, m: Inbound)
    requires Core(c, s) && c.hasChannel && BufRef(m.payload.id) in s.w.inHand
    ensures Core(c, Arrived(c, s, m))
  {
    hide Core; hide Arrived; hide Invariant;
    CoreInvariant(c);
    ArrivedPreserves(c, s => Core(c, s), s, m);
  }

  /** A pooled datagram comes in a free envelope, which then is free no more, and in a new one only if none is free. */
  lemma EnvelopeReused(c: Config, s: State, m: Inbound) returns (e: Event)
    requires c.pooled
    ensures var t := Arrived(c, s, m);
            && t.log.events == s.log.events + [e] && Tells(c, e, m) && e.envelope.Some?
            && if s.w.pool == [] then e.envelope.value == s.w.nextEnvelope && t.w.nextEnvelope == s.w.nextEnvelope + 1
               else multiset(s.w.pool) == multiset(t.w.pool) + multiset{e.envelope.value} && t.w.nextEnvelope == s.w.nextEnvelope
  {
    hide FromSocketAddress; hide Tells; hide HandOver; hide AcquireEnvelope;
    e := ArrivedTells(c, s, m);
    ReusesPool(s.w, BufRef(m.payload.id));
  }

  lemma ReusesPool(v: World, x: Resource)
    ensures var (w, envelope) := AcquireEnvelope(HandOver(v, x));
            if v.pool == [] then envelope == v.nextEnvelope && w.nextEnvelope == v.nextEnvelope + 1
            else multiset(v.pool) == multiset(w.pool) + multiset{envelope} && w.nextEnvelope == v.nextEnvelope
  {
    if v.pool != [] { assert v.pool == [v.pool[0]] + v.pool[1..]; }
  }
}
